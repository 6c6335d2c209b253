/** Division by a variable, in the form the benchmark's index arithmetic needs it. */
module Arith {

  lemma {:induction false} MulStep(n: nat, a: nat, b: nat)
    requires a < b
    ensures n * a + n <= n * b
    decreases b
  {
    assert n * b == n * (b - 1) + n;
    if a == b - 1 {
    } else {
      MulStep(n, a, b - 1);
    }
  }

  /** Quotient and remainder are determined by their equation. */
  lemma Divides(x: nat, n: nat, q: nat, m: nat)
    requires m < n && x == n * q + m
    ensures x / n == q && x % n == m
  {
    DivisionLaw(x, n);
    var q', m' := x / n, x % n;
    if q' < q {
      MulStep(n, q', q);
      assert false;
    } else if q < q' {
      MulStep(n, q, q');
      assert false;
    }
  }

  lemma DivisionLaw(x: nat, n: nat)
    requires n > 0
    ensures x == n * (x / n) + x % n && 0 <= x % n < n
  {
  }

  /** A multiple of the modulus can be dropped. */
  lemma ModShift(x: nat, n: nat, k: nat)
    requires n > 0
    ensures (x + n * k) % n == x % n
  {
    DivisionLaw(x, n);
    assert n * (x / n + k) == n * (x / n) + n * k;
    Divides(x + n * k, n, x / n + k, x % n);
  }
}
