/** Java's fixed-width integers and the two operators the runner applies to
    them: `long` multiplication, which wraps modulo 2^64, and integer
    division, which truncates toward zero (Dafny's `/` is Euclidean). */
module JavaNumerics {

  const MIN_LONG: int := -0x8000_0000_0000_0000
  const MAX_LONG: int := 0x7FFF_FFFF_FFFF_FFFF
  const MIN_INT: int := -0x8000_0000
  const MAX_INT: int := 0x7FFF_FFFF

  /** A Java `long`. */
  type Long = x: int | MIN_LONG <= x <= MAX_LONG

  /** A Java `int`. */
  type Int = x: int | MIN_INT <= x <= MAX_INT

  /** Two's-complement wrap-around of a mathematical integer into `long`. */
  function WrapLong(x: int): (r: Long)
    ensures MIN_LONG <= x <= MAX_LONG ==> r == x
    ensures (x - r) % 0x1_0000_0000_0000_0000 == 0
  {
    (x - MIN_LONG) % 0x1_0000_0000_0000_0000 + MIN_LONG
  }

  /** Java's `a / b` for a positive divisor: the quotient rounded toward zero. */
  function TruncDiv(a: Long, b: Long): (q: Long)
    requires b > 0
    ensures 0 <= a ==> 0 <= q && q * b <= a < q * b + b
    ensures a < 0 ==> q <= 0 && q * b - b < a <= q * b
  {
    var magnitude: int := if a >= 0 then a as int else 0 - a as int;
    var m := magnitude / b;
    assert m * b <= magnitude < m * b + b && 0 <= m <= magnitude by {
      EuclideanQuotient(magnitude, b);
    }
    if a >= 0 then m else -m
  }

  /** The Euclidean quotient of a non-negative number brackets it. */
  lemma EuclideanQuotient(n: int, b: int)
    requires 0 <= n && 0 < b
    ensures (n / b) * b <= n < (n / b) * b + b && 0 <= n / b <= n
  {
    var q, r := n / b, n % b;
    assert n == q * b + r && 0 <= r < b;
    ProductAtLeast(q, b);
  }

  lemma ProductAtLeast(x: int, y: int)
    requires 0 <= x && 0 < y
    ensures x * y >= x
  {
  }
}
