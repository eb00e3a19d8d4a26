/** Products, remainders and multiples. */
module Modular {

  lemma {:induction false} MulMono(n: nat, x: nat, y: nat)
    requires x <= y
    ensures n * x <= n * y
  {
    if x < y {
      MulMono(n, x, y - 1);
      assert n * y == n * (y - 1) + n;
    }
  }

  lemma {:induction false} MulGap(n: nat, x: nat, y: nat)
    ensures x < y ==> n * x + n <= n * y
  {
    if x < y {
      assert n * (x + 1) == n * x + n;
      MulMono(n, x + 1, y);
    }
  }

  lemma {:induction false} AddMultiple(x: nat, k: nat, n: nat)
    requires 0 < n
    ensures (n * k + x) % n == x % n
  {
    var q, r := x / n, x % n;
    assert x == n * q + r;
    assert n * k + x == n * (k + q) + r;
    DivUnique(n * k + x, k + q, r, n);
  }

  lemma {:induction false} DivUnique(x: nat, q: nat, r: nat, n: nat)
    requires 0 < n && x == n * q + r && r < n
    ensures x % n == r && x / n == q
  {
    var q', r' := x / n, x % n;
    assert x == n * q' + r';
    MulGap(n, q, q');
    MulGap(n, q', q);
  }

  /** Adding or multiplying before or after taking the remainder. */
  lemma {:induction false} ModAdd(x: nat, y: nat, n: nat)
    requires 0 < n
    ensures (x % n + y) % n == (x + y) % n
  {
    assert x == n * (x / n) + x % n;
    AddMultiple(x % n + y, x / n, n);
  }

  lemma {:induction false} ModMul(x: nat, y: nat, n: nat)
    requires 0 < n
    ensures (x % n * y) % n == (x * y) % n
  {
    var q, r := x / n, x % n;
    assert x == n * q + r;
    assert x * y == n * (q * y) + r * y;
    AddMultiple(r * y, q * y, n);
  }
}
