/** Java's integer division and remainder (section 15.17 of the Java Language
    Specification). Java rounds the quotient toward zero, while Dafny's `/` and
    `%` on `int` are Euclidean, so the two disagree on negative dividends. */
module JavaArith {

  /** Java `a / b` for a positive divisor: the quotient truncated toward zero. */
  function Quot(a: int, b: int): (q: int)
    requires b > 0
    ensures a >= 0 ==> 0 <= q && q * b <= a < q * b + b
    ensures a < 0 ==> q <= 0 && q * b - b < a <= q * b
  {
    if a >= 0 then
      EuclidBounds(a, b);
      a / b
    else
      var n := (-a) / b;
      EuclidBounds(-a, b);
      assert -n * b == -(n * b);
      -n
  }

  /** Dafny's quotient of a non-negative number is the largest multiple below it. */
  lemma EuclidBounds(n: int, b: int)
    requires n >= 0 && b > 0
    ensures n / b >= 0 && (n / b) * b <= n < (n / b) * b + b
  {
  }

  /** Java `a % b` for a positive divisor: the remainder takes the sign of `a`. */
  function Rem(a: int, b: int): (r: int)
    requires b > 0
    ensures a == Quot(a, b) * b + r
    ensures a >= 0 ==> 0 <= r < b
    ensures a < 0 ==> -b < r <= 0
  {
    a - Quot(a, b) * b
  }

  /** On non-negative dividends Java and Dafny agree. */
  lemma QuotRemNonNegative(a: int, b: int)
    requires a >= 0 && b > 0
    ensures Quot(a, b) == a / b && Rem(a, b) == a % b
  {
  }

  /** A negative dividend is where the two semantics part: Java gives -12 for
      `-25 / 2`, Euclidean division gives -13. */
  lemma QuotDiffersOnNegative()
    ensures Quot(-25, 2) == -12 && -25 / 2 == -13
    ensures Rem(-25, 2) == -1 && -25 % 2 == 1
  {
  }
}
