/** Facts about integer division and remainder used by the cache-key and
    round-robin proofs. */
module Arithmetic {

  lemma MulMono(m: nat, x: nat, y: nat)
    requires x <= y
    ensures m * x <= m * y
  {
  }

  /** Quotient and remainder are determined by any decomposition v == m * a + c with c < m. */
  lemma DivModUnique(v: nat, m: nat, a: nat, c: nat)
    requires m > 0 && v == m * a + c && c < m
    ensures v / m == a && v % m == c
  {
    var q, r := v / m, v % m;
    assert v == m * q + r;
    if q > a {
      assert m * q >= m * (a + 1) by { MulMono(m, a + 1, q); }
      assert false;
    } else if q < a {
      assert m * a >= m * (q + 1) by { MulMono(m, q + 1, a); }
      assert false;
    }
  }

  /** How the quotient and remainder by n change from m to m + 1. */
  lemma DivModStep(m: nat, n: nat)
    requires n > 0
    ensures (m + 1) % n == if m % n == n - 1 then 0 else m % n + 1
    ensures (m + 1) / n == if m % n == n - 1 then m / n + 1 else m / n
  {
    var q, r := m / n, m % n;
    assert m == n * q + r;
    if r == n - 1 {
      assert m + 1 == n * (q + 1) + 0;
      DivModUnique(m + 1, n, q + 1, 0);
    } else {
      assert m + 1 == n * q + (r + 1);
      DivModUnique(m + 1, n, q, r + 1);
    }
  }

  lemma SuccessorMod(x: nat, n: nat)
    requires x < n
    ensures (x + 1) % n == if x + 1 == n then 0 else x + 1
  {
    if x + 1 == n {
      DivModUnique(x + 1, n, 1, 0);
    } else {
      DivModUnique(x + 1, n, 0, x + 1);
    }
  }
}
