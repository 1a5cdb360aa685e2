/** Facts about Euclidean division by a positive divisor that the checksum
    arithmetic relies on. */
module ModArith {

  lemma MulAtLeast(k: int, n: int)
    requires k >= 1 && n > 0
    ensures k * n >= n
  {
  }

  lemma MulSucc(a: int, b: int)
    ensures a * (b + 1) == a + a * b
  {
  }

  /** A quotient and remainder in range are the ones `/` and `%` give. */
  lemma DivModUnique(a: int, n: int, q: int, r: int)
    requires n > 0 && 0 <= r < n && a == q * n + r
    ensures a / n == q && a % n == r
  {
    var q', r' := a / n, a % n;
    assert a == q' * n + r';
    if q > q' {
      MulAtLeast(q - q', n);
    } else if q < q' {
      MulAtLeast(q' - q, n);
    }
  }

  /** Adding a multiple of `n` does not change the remainder. */
  lemma ShiftMod(q: int, n: int, x: int)
    requires n > 0 && q >= 0 && x >= 0
    ensures (q * n + x) % n == x % n
  {
    DivModUnique(x, n, x / n, x % n);
    DivModUnique(q * n + x, n, q + x / n, x % n);
  }

  /** On `[0, 2n)` the quotient is 0 or 1. */
  lemma SmallDivMod(x: int, n: int)
    requires n > 0 && 0 <= x < 2 * n
    ensures x < n ==> x / n == 0 && x % n == x
    ensures x >= n ==> x / n == 1 && x % n == x - n
  {
    if x < n {
      DivModUnique(x, n, 0, x);
    } else {
      DivModUnique(x, n, 1, x - n);
    }
  }

  /** The remainder of a sum depends only on the remainder of its first
      term. */
  lemma AddMod(a: int, n: int, x: int)
    requires a >= 0 && n > 0 && x >= 0
    ensures (a + x) % n == (a % n + x) % n
  {
    var q, m := a / n, a % n;
    assert a + x == q * n + (m + x);
    ShiftMod(q, n, m + x);
  }
}
