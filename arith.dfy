/** Small facts about multiplication, division and remainder used across the model. */
module Arith {
  lemma MulNonNeg(k: int, a: int)
    requires k >= 0 && a >= 0
    ensures k * a >= 0
  {
  }

  lemma MulGe(k: int, a: int)
    requires k >= 1 && a > 0
    ensures k * a >= a
  {
    assert k * a == (k - 1) * a + a;
    MulNonNeg(k - 1, a);
  }

  lemma MulMonotone(a: nat, b: nat, k: nat)
    requires a <= b
    ensures a * k <= b * k
  {
    assert b * k == a * k + (b - a) * k;
    MulNonNeg(b - a, k);
  }

  lemma DivBelow(n: int, d: int, q: int)
    requires d > 0 && 0 <= n < q * d
    ensures 0 <= n / d < q
  {
    var k := n / d;
    if k >= q {
      MulMonotone(q, k, d);
    }
  }

  lemma MulSucc(k: int, a: int)
    ensures (k + 1) * a == k * a + a
  {
  }

  lemma MulAssoc(a: int, b: int, c: int)
    ensures (a * b) * c == a * (b * c)
  {
  }

  lemma MulRotate(a: int, b: int, c: int)
    ensures a * (b * c) == c * (b * a)
  {
  }

  lemma Distrib(x: int, y: int, a: int)
    ensures (x - y) * a == x * a - y * a
  {
  }

  /** Euclidean division is unique: n == q * a + r with 0 <= r < a determines q and r. */
  lemma DivModUnique(n: int, a: int, q: int, r: int)
    requires a > 0 && 0 <= r < a && n == q * a + r
    ensures n % a == r && n / a == q
  {
    var q0, r0 := n / a, n % a;
    assert n == q0 * a + r0;
    if q0 < q {
      Distrib(q, q0, a);
      MulGe(q - q0, a);
    } else if q0 > q {
      Distrib(q0, q, a);
      MulGe(q0 - q, a);
    }
  }

  lemma MultipleOf(q: int, a: int)
    requires a > 0
    ensures (q * a) % a == 0 && (q * a) / a == q
  {
    DivModUnique(q * a, a, q, 0);
  }

  /** A value below twice the modulus loses at most one modulus. */
  lemma ModSmall(x: int, n: int)
    requires n > 0 && 0 <= x < 2 * n
    ensures x % n == (if x < n then x else x - n)
  {
    if x < n {
      DivModUnique(x, n, 0, x);
    } else {
      DivModUnique(x, n, 1, x - n);
    }
  }

  /** Reducing the left summand first does not change the remainder of a sum. */
  lemma ModAddLeft(a: nat, b: nat, n: int)
    requires n > 0
    ensures (a % n + b) % n == (a + b) % n
  {
    var q1, r1 := a / n, a % n;
    var q2, r2 := (r1 + b) / n, (r1 + b) % n;
    assert a == q1 * n + r1;
    assert r1 + b == q2 * n + r2;
    assert (q1 + q2) * n == q1 * n + q2 * n;
    DivModUnique(a + b, n, q1 + q2, r2);
  }

  /** Adding the modulus does not change the remainder. */
  lemma ModAddModulus(x: nat, n: int)
    requires n > 0
    ensures (x + n) % n == x % n
  {
    var q, r := x / n, x % n;
    assert x == q * n + r;
    assert x + n == (q + 1) * n + r;
    DivModUnique(x + n, n, q + 1, r);
  }
}
