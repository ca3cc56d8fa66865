/** Division facts the rotation and the retry rounds need. */
module Modular {

  lemma AtLeastOneTimes(k: int, n: nat)
    requires k >= 1
    ensures k * n >= n
  {
    assert k * n == (k - 1) * n + n;
  }

  /** A quotient and a remainder in range are the quotient and the remainder. */
  lemma DivModUnique(a: nat, n: nat, q: int, r: nat)
    requires n > 0 && r < n && a == q * n + r
    ensures a / n == q && a % n == r
  {
    var d, m := a / n, a % n;
    assert a == d * n + m;
    assert (d - q) * n == d * n - q * n && (q - d) * n == q * n - d * n;
    if d > q {
      AtLeastOneTimes(d - q, n);
    } else if d < q {
      AtLeastOneTimes(q - d, n);
    }
  }

  lemma ModAddMultiple(a: nat, q: nat, n: nat)
    requires n > 0
    ensures (a + q * n) % n == a % n
  {
    var d, m := a / n, a % n;
    assert a == d * n + m;
    assert (d + q) * n == d * n + q * n;
    DivModUnique(a + q * n, n, d + q, m);
  }

  lemma ModShift(a: nat, b: nat, n: nat)
    requires n > 0
    ensures (a % n + b) % n == (a + b) % n
  {
    var d, m := a / n, a % n;
    assert a == d * n + m;
    ModAddMultiple(m + b, d, n);
  }

  lemma SameResidue(a: nat, b: nat, n: nat)
    requires n > 0 && a % n == b % n && a <= b < a + n
    ensures a == b
  {
    var q, m := a / n, a % n;
    assert a == q * n + m;
    var r := b / n;
    assert b == r * n + m;
    assert (r - q) * n == r * n - q * n && (q - r) * n == q * n - r * n;
    if r > q {
      AtLeastOneTimes(r - q, n);
    } else if r < q {
      AtLeastOneTimes(q - r, n);
    }
  }

  /** Counting up by one either advances the remainder or starts the next round. */
  lemma DivModStep(k: nat, n: nat)
    requires n > 0
    ensures k % n == n - 1 ==> (k + 1) / n == k / n + 1 && (k + 1) % n == 0
    ensures k % n < n - 1 ==> (k + 1) / n == k / n && (k + 1) % n == k % n + 1
  {
    var q, m := k / n, k % n;
    assert k == q * n + m;
    assert (q + 1) * n == q * n + n;
    if m == n - 1 {
      DivModUnique(k + 1, n, q + 1, 0);
    } else {
      DivModUnique(k + 1, n, q, m + 1);
    }
  }
}
