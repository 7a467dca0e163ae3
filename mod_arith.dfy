/** Facts about Euclidean division that the ring-buffer proofs need. */
module ModArith {

  /** Division and remainder are determined by any decomposition a == q * n + r with 0 <= r < n. */
  lemma ModUnique(a: int, n: int, q: int, r: int)
    requires n > 0 && 0 <= r < n && a == q * n + r
    ensures a % n == r && a / n == q
  {
    var q0, r0 := a / n, a % n;
    assert a == q0 * n + r0;
    var d := q - q0;
    assert d * n == r0 - r by {
      assert q * n - q0 * n == d * n;
    }
    assert d == 0;
  }

  /** Reducing the first summand first does not change the remainder of a sum. */
  lemma ModAddLeft(a: int, b: int, n: int)
    requires n > 0
    ensures (a + b) % n == (a % n + b) % n
  {
    var s := a % n + b;
    ModUnique(a + b, n, a / n + s / n, s % n);
  }

  /** A remainder keeps the alignment that both the dividend and the divisor have. */
  lemma ModKeepsAlignment(a: int, n: int, k: int)
    requires n > 0 && k > 0 && a % k == 0 && n % k == 0
    ensures (a % n) % k == 0
  {
    var q := a / n;
    var m := n / k;
    var j := a / k;
    assert a == j * k;
    assert n == m * k;
    assert a % n == a - q * n;
    assert q * n == (q * m) * k;
    ModUnique(a % n, k, j - q * m, 0);
  }
}
