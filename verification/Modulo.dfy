/** Quotient and remainder are unique. */
module Modulo {

  lemma ModUnique(n: nat, k: nat, q: nat, r: nat)
    requires n > 0 && r < n && k == q * n + r
    ensures k % n == r
  {
    var q', r' := k / n, k % n;
    assert k == q' * n + r';
    if q' > q {
      WholeLap(q, q', n);
    } else if q' < q {
      WholeLap(q', q, n);
    }
  }

  lemma WholeLap(a: int, b: int, n: nat)
    requires a < b
    ensures a * n + n <= b * n
  {
    var c := b - a - 1;
    assert c * n >= 0;
    assert b * n == (a + 1 + c) * n == a * n + n + c * n;
  }

  lemma ModLap(n: nat, k: nat)
    requires n > 0
    ensures (k + n) % n == k % n
  {
    var q, r := k / n, k % n;
    assert k == q * n + r;
    OneMore(q, n);
    ModUnique(n, k + n, q + 1, r);
  }

  lemma OneMore(q: nat, n: nat)
    ensures (q + 1) * n == q * n + n
  {}

  /** A remainder of a negative number is that of the number one lap up. */
  lemma ModShift(n: nat, x: int)
    requires 0 < -x < n
    ensures x % n == (x + n) % n
  {
    assert x == (x / n) * n + x % n;
    if x / n < -1 {
      WholeLap(x / n, -1, n);
    }
    ModUnique(n, x + n, 0, x + n);
  }
}
