/** Facts about integer multiplication, division and remainder that the solver does not find alone. */
module Arith {

  lemma MulNonneg(a: nat, b: nat)
    ensures a * b >= 0
  {
  }

  lemma MulAtLeast(m: int, x: int)
    requires m >= 0
    ensures x >= 1 ==> m * x >= m
    ensures x <= -1 ==> m * x <= -m
  {
    if x >= 1 {
      assert m * x == m + m * (x - 1);
      MulNonneg(m, x - 1);
    }
    if x <= -1 {
      assert m * x == -m - m * (-x - 1);
      MulNonneg(m, -x - 1);
    }
  }

  /** Division with remainder is unique: `a == m * q + r` with `0 <= r < m` fixes `a / m` and `a % m`. */
  lemma UniqueDivMod(a: int, m: nat, q: int, r: int)
    requires m > 0 && a == m * q + r && 0 <= r < m
    ensures a / m == q && a % m == r
  {
    var q0, r0 := a / m, a % m;
    assert a == m * q0 + r0;
    assert m * (q - q0) == r0 - r by {
      assert m * (q - q0) == m * q - m * q0;
    }
    MulAtLeast(m, q - q0);
  }

  /** `(a / b) / c == a / (b * c)` for positive divisors. */
  lemma DivDiv(a: nat, b: nat, c: nat)
    requires b > 0 && c > 0
    ensures (a / b) / c == a / (b * c)
  {
    var q, r := a / b, a % b;
    var q2, r2 := q / c, q % c;
    assert a == b * q + r;
    assert q == c * q2 + r2;
    assert a == (b * c) * q2 + (b * r2 + r) by {
      assert b * (c * q2 + r2) == (b * c) * q2 + b * r2;
    }
    assert b * r2 + r < b * c by {
      MulAtLeast(b, c - r2);
      assert b * (c - r2) == b * c - b * r2;
    }
    MulNonneg(b, r2);
    MulNonneg(b, c);
    UniqueDivMod(a, b * c, q2, b * r2 + r);
  }

  /** Taking the remainder before adding one does not change the remainder after it. */
  lemma ModSucc(a: nat, n: nat)
    requires n > 0
    ensures ((a % n) + 1) % n == (a + 1) % n
  {
    var q, r := a / n, a % n;
    if r + 1 < n {
      UniqueDivMod(a + 1, n, q, r + 1);
      UniqueDivMod(r + 1, n, 0, r + 1);
    } else {
      UniqueDivMod(a + 1, n, q + 1, 0);
      UniqueDivMod(r + 1, n, 1, 0);
    }
  }
}
