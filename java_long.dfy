/**
 * The Java integer semantics the listeners rely on: the ranges of `int` and `long`,
 * epoch milliseconds, and `/`, which truncates toward zero (Dafny's `/` is Euclidean).
 */
module JavaLong {

  const IntMin: int := -0x8000_0000
  const IntMax: int := 0x7FFF_FFFF
  const LongMin: int := -0x8000_0000_0000_0000
  const LongMax: int := 0x7FFF_FFFF_FFFF_FFFF

  predicate IsInt(x: int) { IntMin <= x <= IntMax }

  predicate IsLong(x: int) { LongMin <= x <= LongMax }

  /** A value of `System.currentTimeMillis()`: a non-negative `long`. */
  type Millis = t: int | 0 <= t <= LongMax

  /**
   * Java's `a / b` for a positive divisor: the quotient rounded toward zero,
   * so the remainder takes the sign of the dividend.
   */
  function Quot(a: int, b: int): (q: int)
    requires b > 0
    ensures a >= 0 ==> 0 <= a - q * b < b
    ensures a < 0 ==> -b < a - q * b <= 0
    ensures a >= 0 ==> 0 <= q <= a
    ensures a < 0 ==> a <= q <= 0
  {
    if a >= 0 then DivFacts(a, b); a / b
    else DivFacts(-a, b); -((-a) / b)
  }

  /** Euclidean division of a non-negative dividend, bounded both ways. */
  lemma DivFacts(n: int, b: int)
    requires n >= 0 && b > 0
    ensures 0 <= n - (n / b) * b < b
    ensures 0 <= n / b <= n
  {
    var q, r := n / b, n % b;
    assert n == q * b + r && 0 <= r < b;
    assert q >= 0;
    MulAtLeastSelf(q, b);
  }

  lemma MulAtLeastSelf(q: int, b: int)
    requires q >= 0 && b > 0
    ensures q * b >= q
  {
  }

  /** The remainder conditions of `Quot` determine the quotient: nothing else meets them. */
  lemma QuotUnique(a: int, b: int, q: int)
    requires b > 0
    requires a >= 0 ==> 0 <= a - q * b < b
    requires a < 0 ==> -b < a - q * b <= 0
    ensures q == Quot(a, b)
  {
    var p := Quot(a, b);
    if q < p {
      MulAtLeast(p - q, b);
    } else if q > p {
      MulAtLeast(q - p, b);
    }
  }

  lemma MulAtLeast(k: int, b: int)
    requires k >= 1 && b > 0
    ensures k * b >= b
  {
  }

  /** Unlike Euclidean division, Java's quotient is symmetric under negation of the dividend. */
  lemma QuotNegate(a: int, b: int)
    requires b > 0
    ensures Quot(-a, b) == -Quot(a, b)
  {
  }
}
