/** Multiplication and division by shifting, for words of `w` bits: the 64-bit
    and the 32-bit routines are the same code. */
module Division {
  import opened Bitmap
  import opened Modular

  /** 2 to the w. */
  function Range(w: nat): (m: nat)
    ensures m > 0
  {
    Positive(w);
    Doubled(1, w)
  }

  lemma {:induction false} Positive(w: nat)
    ensures Doubled(1, w) > 0
  {
    if w > 0 {
      Positive(w - 1);
    }
  }

  /** y * 2^k as y shifted k times. */
  lemma {:induction false} DoubledTimes(y: nat, k: nat)
    ensures Doubled(y, k) == Doubled(1, k) * y
  {
    if k > 0 {
      DoubledTimes(y, k - 1);
      var d := Doubled(1, k - 1);
      assert 2 * d * y == 2 * (d * y);
    }
  }

  /** The first loop of the division: the divisor is shifted up until it passes
      `x` or reaches the top bit, so no bit of it is lost. */
  method ShiftUp(x: nat, y: nat, w: nat) returns (z: nat, aux: nat, ghost k: nat)
    requires w > 0 && x < Range(w) && 0 < y < Range(w)
    ensures z == Doubled(y, k) < Range(w) && aux == Doubled(1, k) < Range(w) && x < 2 * z
  {
    z, aux, k := y, 1, 0;
    Positive(w - 1);
    while z < x && z < Range(w) / 2
      invariant z == Doubled(y, k) && aux == Doubled(1, k) && 0 < aux <= z < Range(w)
      decreases Range(w) - z
    {
      z, aux, k := 2 * z, 2 * aux, k + 1;
    }
    assert Range(w) == 2 * Doubled(1, w - 1);
  }

  /** One turn of the second loop. */
  lemma {:induction false} Subtract(x: nat, acc: nat, y: nat, k: nat, all: nat)
    requires acc * y + x == all
    ensures Doubled(y, k) <= x ==> (acc + Doubled(1, k)) * y + (x - Doubled(y, k)) == all
  {
    DoubledTimes(y, k);
    assert (acc + Doubled(1, k)) * y == acc * y + Doubled(1, k) * y;
  }

  lemma {:induction false} QuotientIs(x: nat, y: nat, q: nat, r: nat)
    requires y > 0 && q * y + r == x && r < y
    ensures q == x / y && r == x % y
  {
    assert y * q == q * y;
    DivUnique(x, q, r, y);
  }

  /** __udiv_umod_di3 and __udiv_umod_si3 */
  method UdivUmod(x: nat, y: nat, w: nat) returns (q: nat, r: nat)
    requires w > 0 && x < Range(w) && y < Range(w)
    ensures y == 0 ==> q == 0 && r == 0
    ensures y != 0 ==> q == x / y && r == x % y && q * y + r == x && r < y
  {
    if y == 0 {
      return 0, 0;
    }
    ghost var k;
    var z, aux;
    z, aux, k := ShiftUp(x, y, w);
    q, r := 0, x;
    ghost var n := k + 1;
    while r != 0 && aux != 0
      invariant q * y + r == x
      invariant n == 0 ==> aux == 0 && r < y
      invariant n > 0 ==> aux == Doubled(1, n - 1) && z == Doubled(y, n - 1) && r < 2 * z
      decreases n
    {
      Subtract(r, q, y, n - 1, x);
      if z <= r {
        r, q := r - z, q + aux;
      }
      aux, z, n := aux / 2, z / 2, n - 1;
    }
    if n > 0 {
      Positive(n - 1);
    }
    QuotientIs(x, y, q, r);
  }

  /** What the multiplication loop keeps. */
  ghost function Pending(acc: nat, a: nat, b: nat, m: nat): nat
    requires m > 0
  {
    (acc + a * b) % m
  }

  /** __umuldi3 and __umulsi3: the product modulo 2^w. */
  method Umul(x: nat, y: nat, w: nat) returns (acc: nat)
    requires x < Range(w) && y < Range(w)
    ensures acc == x * y % Range(w)
  {
    var a, b := x, y;
    if a < b {
      a, b := b, a;
    }
    var m := Range(w);
    acc := 0;
    assert a * b == x * y;
    while b != 0
      invariant acc < m && Pending(acc, a, b, m) == x * y % m
      decreases b
    {
      MulTurn(acc, a, b, m);
      if b % 2 == 1 {
        acc := (acc + a) % m;
      }
      a, b := 2 * a % m, b / 2;
    }
    Spent(acc, a, m);
  }

  lemma {:induction false} Spent(acc: nat, a: nat, m: nat)
    requires acc < m
    ensures Pending(acc, a, 0, m) == acc
  {
    assert a * 0 == 0;
    DivUnique(acc, 0, acc, m);
  }

  lemma {:induction false} MulTurn(acc: nat, a: nat, b: nat, m: nat)
    requires m > 0 && b > 0
    ensures var acc' := if b % 2 == 1 then (acc + a) % m else acc;
            Pending(acc', 2 * a % m, b / 2, m) == Pending(acc, a, b, m)
  {
    var c, acc0 := b / 2, if b % 2 == 1 then acc + a else acc;
    var acc' := if b % 2 == 1 then (acc + a) % m else acc;
    assert a * b == 2 * a * c + (if b % 2 == 1 then a else 0) by {
      assert b == 2 * c + b % 2;
      assert a * (2 * c + b % 2) == 2 * a * c + a * (b % 2);
    }
    var p := 2 * a % m * c;
    ModMul(2 * a, c, m);
    ModAdd(2 * a * c, acc0, m);
    ModAdd(p, acc0, m);
    ModAdd(acc0, p, m);
  }

  /** Two's complement: the signed reading of a word, and its negation. */
  function Signed(u: nat, w: nat): (x: int)
    requires u < Range(w)
  {
    if 2 * u < Range(w) then u else u - Range(w)
  }

  function Negated(u: nat, w: nat): (v: nat)
    requires u < Range(w)
    ensures v < Range(w)
  {
    if u == 0 then 0 else Range(w) - u
  }

  /** A value the signed type holds and whose negation it holds too. */
  predicate Proper(x: int, w: nat)
  {
    0 - Range(w) < 2 * x < Range(w)
  }

  function Size(x: int): nat
  {
    if x < 0 then -x else x
  }

  lemma {:induction false} SignedNegated(u: nat, w: nat)
    requires u < Range(w)
    ensures 2 * u < Range(w) ==> Signed(u, w) == u && Signed(Negated(u, w), w) == 0 - u
  {
  }

  /** __div_mod_di3 and __div_mod_si3: division that truncates toward zero;
      the remainder has the sign of the dividend. */
  method DivMod(x: int, y: int, w: nat) returns (q: int, r: int)
    requires w > 0 && Proper(x, w) && Proper(y, w)
    ensures y == 0 ==> q == 0 && r == 0
    ensures y != 0 ==> q * y + r == x && Size(r) < Size(y)
    ensures y != 0 ==> (r > 0 ==> x > 0) && (r < 0 ==> x < 0)
  {
    if y == 0 {
      return 0, 0;
    }
    var a, b := UdivUmod(Size(x), Size(y), w);
    Bounded(Size(x), Size(y), a, b);
    SignedNegated(a, w);
    SignedNegated(b, w);
    q := Signed(if (x < 0) != (y < 0) then Negated(a, w) else a, w);
    r := Signed(if x < 0 then Negated(b, w) else b, w);
    SignedParts(x, y, a, b);
  }

  lemma {:induction false} Bounded(x: nat, y: nat, q: nat, r: nat)
    requires if y == 0 then q == 0 && r == 0 else q * y + r == x && r < y
    ensures q <= x && r <= x
  {
    if y > 0 {
      MulMono(q, 1, y);
    }
  }

  lemma {:induction false} SignedParts(x: int, y: int, q: nat, r: nat)
    requires q * Size(y) + r == Size(x)
    ensures (if (x < 0) != (y < 0) then 0 - q else q) * y + (if x < 0 then 0 - r else r) == x
  {
    assert (0 - q) * -y == q * y;
    assert (0 - q) * y == -(q * y);
    assert q * -y == -(q * y);
  }

  /** __muldi3 and __mulsi3: the product, wrapped into the signed type. */
  method Mul(x: int, y: int, w: nat) returns (z: int)
    requires w > 0 && Proper(x, w) && Proper(y, w)
    ensures 0 - Range(w) <= 2 * z < Range(w)
    ensures z % Range(w) == x * y % Range(w)
  {
    var acc := Umul(Size(x), Size(y), w);
    z := Signed(if (x < 0) != (y < 0) then Negated(acc, w) else acc, w);
    Wraps(x, y, acc, w);
  }

  lemma {:induction false} Congruent(x: int, y: int, k: int, m: nat)
    requires m > 0 && x == y + m * k
    ensures x % m == y % m
  {
    var q, r := y / m, y % m;
    assert x == m * (q + k) + r;
    var q', r' := x / m, x % m;
    assert m * (q + k - q') == r' - r;
    Between(m, q + k - q');
  }

  lemma {:induction false} Between(m: nat, k: int)
    requires 0 - m < m * k < m
    ensures k == 0
  {
    if k < 0 {
      assert m * -k == -(m * k);
    }
    MulGap(m, 0, Size(k));
  }

  lemma {:induction false} Wraps(x: int, y: int, acc: nat, w: nat)
    requires acc == Size(x) * Size(y) % Range(w)
    ensures var z := Signed(if (x < 0) != (y < 0) then Negated(acc, w) else acc, w);
            z % Range(w) == x * y % Range(w)
  {
    var m, flip := Range(w), (x < 0) != (y < 0);
    var p := Size(x) * Size(y);
    assert p == m * (p / m) + acc;
    SignOfProduct(x, y);
    var u := if flip then Negated(acc, w) else acc;
    var z := Signed(u, w);
    var k := (if z < 0 then -1 else 0) + (if flip then (if acc == 0 then 0 else 1) + p / m else 0 - p / m);
    Collect(z, x * y, p, acc, flip, m, k);
    Congruent(z, x * y, k, m);
  }

  lemma {:induction false} SignOfProduct(x: int, y: int)
    ensures x * y == if (x < 0) != (y < 0) then 0 - Size(x) * Size(y) else Size(x) * Size(y)
  {
    assert -x * -y == x * y;
    assert -x * y == -(x * y);
    assert x * -y == -(x * y);
  }

  lemma {:induction false} Collect(z: int, xy: int, p: nat, acc: nat, flip: bool, m: nat, k: int)
    requires m > 0 && p == m * (p / m) + acc && acc < m
    requires xy == if flip then 0 - p else p
    requires var u := if !flip then acc else if acc == 0 then 0 else m - acc;
             z == (if 2 * u < m then u else u - m) &&
             k == (if z < 0 then -1 else 0) + (if flip then (if acc == 0 then 0 else 1) + p / m else 0 - p / m)
    ensures z == xy + m * k
  {
    var h, s := p / m, if z < 0 then -1 else 0;
    if flip {
      var t := if acc == 0 then 0 else 1;
      assert m * (s + t + h) == m * s + m * t + m * h;
    } else {
      assert m * (s - h) == m * s - m * h;
    }
  }
}
