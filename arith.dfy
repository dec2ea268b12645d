/** Small facts of integer and real arithmetic that the solver does not find
    on its own (products with a variable factor, Euclidean `%` and `/`). */
module Arith {

  lemma {:induction false} MulAtLeast(d: nat, m: nat)
    requires d >= 1
    ensures d * m >= m
  {
    if d > 1 {
      MulAtLeast(d - 1, m);
      assert d * m == (d - 1) * m + m;
    }
  }

  lemma MulMono(a: int, b: int, m: nat)
    requires m > 0
    ensures a < b ==> a * m + m <= b * m
  {
    if a < b {
      MulAtLeast(b - a, m);
      assert b * m - a * m == (b - a) * m;
    }
  }

  /** Euclidean division is unique: a decomposition x == q * m + r with
      0 <= r < m is the one `/` and `%` compute. */
  lemma ModUnique(x: int, q: int, r: int, m: nat)
    requires m > 0 && 0 <= r < m && x == q * m + r
    ensures x % m == r && x / m == q
  {
    MulMono(q, x / m, m);
    MulMono(x / m, q, m);
  }

  lemma DivSub(a: real, b: real)
    requires b > 0.0
    ensures (a - b) / b == a / b - 1.0
  {
    assert (a - b) / b == a / b - b / b;
  }

  lemma MulSucc(k: nat, s: real)
    ensures (k + 1) as real * s == k as real * s + s
  {
  }
}
