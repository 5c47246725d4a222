/** Go's integer semantics that differ from Dafny's. */
module GoInt {

  function Abs(x: int): nat
  {
    if x < 0 then -x else x
  }

  /**
   * Go's `a / b` on integers: the quotient truncated toward zero. The three
   * properties below determine it uniquely: the remainder `a - q * b` is
   * smaller than the divisor in magnitude and has the sign of `a`.
   * (Dafny's own `/` is Euclidean and differs for negative operands.)
   */
  function Quo(a: int, b: int): (q: int)
    requires b != 0
    ensures Abs(a - q * b) < Abs(b)
    ensures a >= 0 ==> a - q * b >= 0
    ensures a <= 0 ==> a - q * b <= 0
  {
    var n, d := Abs(a), Abs(b);
    var m := n / d;
    TruncatedRemainder(a, b, n, d, m);
    if (a >= 0) == (b > 0) then m else -m
  }

  /** The remainder of the truncated division, from Euclidean division of the magnitudes. */
  lemma TruncatedRemainder(a: int, b: int, n: int, d: int, m: int)
    requires b != 0 && n == Abs(a) && d == Abs(b) && m == n / d
    ensures var q := if (a >= 0) == (b > 0) then m else -m;
            Abs(a - q * b) < Abs(b) && (a >= 0 ==> a - q * b >= 0) && (a <= 0 ==> a - q * b <= 0)
  {
    EuclideanRemainder(n, d);
    MulNegate(m, d);
    if a >= 0 && b > 0 {
      assert a - m * b == n - m * d;
    } else if a >= 0 {
      assert a - (-m) * b == n - m * d;
    } else if b > 0 {
      assert a - (-m) * b == -(n - m * d);
    } else {
      assert a - m * b == -(n - m * d);
    }
  }

  lemma EuclideanRemainder(n: int, d: int)
    requires n >= 0 && d > 0
    ensures 0 <= n - (n / d) * d < d
  {
  }

  lemma MulNegate(x: int, y: int)
    ensures (-x) * y == -(x * y) && x * (-y) == -(x * y) && (-x) * (-y) == x * y
  {
  }

  /** For a positive divisor, the truncated quotient brackets `a` between two consecutive multiples of `b`. */
  lemma QuoBrackets(a: int, b: int)
    requires b > 0
    ensures var q := Quo(a, b);
            (a >= 0 ==> 0 <= q && q * b <= a < (q + 1) * b) &&
            (a < 0 ==> q <= 0 && (q - 1) * b < a <= q * b)
  {
    var q := Quo(a, b);
    assert (q + 1) * b == q * b + b;
    assert (q - 1) * b == q * b - b;
    MulAtLeast(q, b);
  }

  /** A multiple of `n` leaves no remainder. */
  lemma MulMod(k: int, n: int)
    requires n != 0
    ensures (k * n) % n == 0
  {
    var q, m := (k * n) / n, (k * n) % n;
    assert k * n == q * n + m;
    assert (k - q) * n == m;
    if n > 0 {
      MulAtLeast(k - q, n);
    } else {
      assert (k - q) * n == -((k - q) * -n);
      MulAtLeast(k - q, -n);
    }
  }

  /** A non-zero multiple of a positive `n` is at least `n` away from zero. */
  lemma MulAtLeast(x: int, n: int)
    requires n > 0
    ensures x > 0 ==> x * n >= n
    ensures x < 0 ==> x * n <= -n
  {
    if x > 0 {
      assert x * n == (x - 1) * n + n;
      MulNonNegative(x - 1, n);
    }
    if x < 0 {
      assert x * n == -((-x - 1) * n) - n;
      MulNonNegative(-x - 1, n);
    }
  }

  lemma MulNonNegative(a: int, b: int)
    requires a >= 0 && b >= 0
    ensures a * b >= 0
  {
  }
}
