/** Java's 32-bit `int`, its bit patterns in memory, its division, and `null`. */
module JavaTypes {

  const MinInt32: int := -0x8000_0000
  const MaxInt32: int := 0x7fff_ffff

  /** The values a Java `int` can hold. */
  predicate IsInt32(x: int) {
    MinInt32 <= x <= MaxInt32
  }

  /** A nullable reference: `None` stands for Java's `null`. */
  datatype Option<T> = None | Some(value: T)

  /** The 32 bits that `MemoryUtil.memPutInt` stores for the Java `int` `x`
      (two's complement; a wider value wraps around as a Java cast would). */
  function Bits(x: int): bv32 {
    (x % 0x1_0000_0000) as bv32
  }

  /** Java's `/` on `int`: the quotient is truncated toward zero (Dafny's
      own `/` is Euclidean and differs for a negative dividend). */
  function JavaDiv(a: int, b: int): (q: int)
    requires b > 0
    ensures a >= 0 ==> 0 <= q * b <= a < q * b + b
    ensures a < 0 ==> q * b - b < a <= q * b <= 0
  {
    if a >= 0 then
      EuclideanDivBounds(a, b);
      a / b
    else
      EuclideanDivBounds(-a, b);
      -((-a) / b)
  }

  /** For a non-negative dividend, Euclidean and truncating division agree
      and bracket the dividend between two consecutive multiples. */
  lemma EuclideanDivBounds(n: int, b: int)
    requires n >= 0 && b > 0
    ensures 0 <= (n / b) * b <= n < (n / b) * b + b
  {
    var q, r := n / b, n % b;
    assert n == b * q + r;
    assert 0 <= r < b;
  }
}
