/**
 * Facts about integer division and remainder by a positive divisor, which
 * the solver does not find on its own.
 */
module Arith {

  /** `ceil(a / b)` for a non-negative numerator and a positive divisor. */
  function CeilDiv(a: nat, b: int): (c: nat)
    requires b >= 1
    ensures (c - 1) * b < a <= c * b || (a == 0 && c == 0)
  {
    var c := (a + b - 1) / b;
    DivMod(a + b - 1, b);
    c
  }

  lemma DivMod(x: int, n: int)
    requires n >= 1
    ensures x == (x / n) * n + x % n && 0 <= x % n < n
  {
  }

  lemma MulMonotone(d: int, n: int)
    requires n >= 1
    ensures d >= 1 ==> d * n >= n
    ensures d <= -1 ==> d * n <= -n
  {
  }

  /** Division with remainder has only one answer. */
  lemma DivModUnique(x: int, n: int, q: int, r: int)
    requires n >= 1 && 0 <= r < n && x == q * n + r
    ensures x / n == q && x % n == r
  {
    var q', r' := x / n, x % n;
    assert x == q' * n + r';
    assert (q - q') * n == r' - r;
    MulMonotone(q - q', n);
  }

  /** Counting up by one wraps the remainder around to zero at the divisor. */
  lemma ModSucc(a: int, n: int)
    requires a >= 0 && n >= 1
    ensures (a + 1) % n == if a % n + 1 == n then 0 else a % n + 1
  {
    var q := a / n;
    assert a == q * n + a % n;
    if a % n + 1 == n {
      DivModUnique(a + 1, n, q + 1, 0);
    } else {
      DivModUnique(a + 1, n, q, a % n + 1);
    }
  }

  /** Moving the numerator of a rounded-up quotient up by one adds one exactly after a multiple of the divisor. */
  lemma CeilDivStep(m: nat, k: int)
    requires k >= 1
    ensures CeilDiv(m + 1, k) == CeilDiv(m, k) + (if m % k == 0 then 1 else 0)
  {
    var q, r := m / k, m % k;
    DivMod(m, k);
    if r == 0 {
      DivModUnique(m + k - 1, k, q, k - 1);
      DivModUnique(m + k, k, q + 1, 0);
    } else {
      DivModUnique(m + k - 1, k, q + 1, r - 1);
      DivModUnique(m + k, k, q + 1, r);
    }
  }
}
