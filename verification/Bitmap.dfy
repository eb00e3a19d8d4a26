/** Bitmaps: bits are set and cleared in bytes, and searched in little-endian
    64-bit words. */
module Bitmap {

  type Byte = x: nat | x < 256

  /** 2 to the n, by doubling. */
  function Doubled(x: nat, n: nat): nat {
    if n == 0 then x else 2 * Doubled(x, n - 1)
  }

  /** Bit `k` of a number. */
  predicate Bit(x: nat, k: nat) {
    if k == 0 then x % 2 == 1 else Bit(x / 2, k - 1)
  }

  /** x | (1 << k) */
  function WithBit(x: nat, k: nat): nat {
    if k == 0 then x - x % 2 + 1 else x % 2 + 2 * WithBit(x / 2, k - 1)
  }

  /** x & ~(1 << k) */
  function WithoutBit(x: nat, k: nat): nat {
    if k == 0 then x - x % 2 else x % 2 + 2 * WithoutBit(x / 2, k - 1)
  }

  lemma {:induction false} Mix(b: nat, w: nat)
    requires b < 2
    ensures (b + 2 * w) / 2 == w && (b + 2 * w) % 2 == b
  {
  }

  lemma {:induction false} WithBitIs(x: nat, k: nat, j: nat)
    ensures Bit(WithBit(x, k), j) <==> j == k || Bit(x, j)
    ensures Bit(WithoutBit(x, k), j) <==> j != k && Bit(x, j)
  {
    if k > 0 && j > 0 {
      WithBitIs(x / 2, k - 1, j - 1);
    }
    if k > 0 {
      Mix(x % 2, WithBit(x / 2, k - 1));
      Mix(x % 2, WithoutBit(x / 2, k - 1));
    } else {
      Mix(1, x / 2);
      Mix(0, x / 2);
    }
  }

  lemma {:induction false} BitBounds(x: nat, k: nat, n: nat)
    requires x < Doubled(1, n) && k < n
    ensures WithBit(x, k) < Doubled(1, n) && WithoutBit(x, k) < Doubled(1, n)
  {
    Mix(x % 2, x / 2);
    assert Doubled(1, n) == 2 * Doubled(1, n - 1);
    if k > 0 {
      BitBounds(x / 2, k - 1, n - 1);
    }
  }

  lemma {:induction false} ByteBound()
    ensures Doubled(1, 8) == 256
  {
    assert Doubled(1, 1) == 2 && Doubled(1, 2) == 4 && Doubled(1, 3) == 8 && Doubled(1, 4) == 16;
    assert Doubled(1, 5) == 32 && Doubled(1, 6) == 64 && Doubled(1, 7) == 128;
  }

  /** Bit `i` of a buffer. */
  predicate BitAt(buf: seq<Byte>, i: nat)
    requires i < 8 * |buf|
  {
    Bit(buf[i / 8], i % 8)
  }

  function Marked(buf: seq<Byte>, i: nat): seq<Byte>
    requires i < 8 * |buf|
  {
    ByteBound();
    BitBounds(buf[i / 8], i % 8, 8);
    buf[i / 8 := WithBit(buf[i / 8], i % 8)]
  }

  function Unmarked(buf: seq<Byte>, i: nat): seq<Byte>
    requires i < 8 * |buf|
  {
    ByteBound();
    BitBounds(buf[i / 8], i % 8, 8);
    buf[i / 8 := WithoutBit(buf[i / 8], i % 8)]
  }

  /** Marking a bit sets that bit and no other, unmarking clears it. */
  lemma {:induction false} MarkedIs(buf: seq<Byte>, i: nat, j: nat)
    requires i < 8 * |buf| && j < 8 * |buf|
    ensures BitAt(Marked(buf, i), j) <==> j == i || BitAt(buf, j)
    ensures BitAt(Unmarked(buf, i), j) <==> j != i && BitAt(buf, j)
  {
    WithBitIs(buf[i / 8], i % 8, j % 8);
  }

  /** bm_set_bit */
  method SetBit(buf: array<Byte>, i: nat)
    requires i < 8 * buf.Length
    modifies buf
    ensures buf[..] == Marked(old(buf[..]), i)
  {
    var idx, shift := i / 8, i % 8;
    ByteBound();
    BitBounds(buf[idx], shift, 8);
    buf[idx] := WithBit(buf[idx], shift);
  }

  /** bm_clear_bit */
  method ClearBit(buf: array<Byte>, i: nat)
    requires i < 8 * buf.Length
    modifies buf
    ensures buf[..] == Unmarked(old(buf[..]), i)
  {
    var idx, shift := i / 8, i % 8;
    ByteBound();
    BitBounds(buf[idx], shift, 8);
    buf[idx] := WithoutBit(buf[idx], shift);
  }

  // -------------------------------------------------------------------- bytes against words

  /** The little-endian number in `n` bytes from `at` on. */
  function Word(buf: seq<Byte>, at: nat, n: nat): nat
    requires at + n <= |buf|
    decreases n
  {
    if n == 0 then 0 else buf[at] + 256 * Word(buf, at + 1, n - 1)
  }

  /** Below `n` the bits of `b + r * 2^n` are those of `b`, above those of `r`. */
  lemma {:induction false} BitMix(b: nat, r: nat, n: nat, k: nat)
    requires b < Doubled(1, n)
    ensures Bit(b + Doubled(r, n), k) <==> if k < n then Bit(b, k) else Bit(r, k - n)
    decreases n
  {
    if n > 0 {
      var d := Doubled(r, n - 1);
      assert b + Doubled(r, n) == b + 2 * d;
      if k > 0 {
        assert (b + 2 * d) / 2 == b / 2 + d;
        BitMix(b / 2, r, n - 1, k - 1);
      }
    }
  }

  lemma {:induction false} Times256(r: nat)
    ensures Doubled(r, 8) == 256 * r
  {
    assert Doubled(r, 1) == 2 * r && Doubled(r, 2) == 4 * r && Doubled(r, 3) == 8 * r && Doubled(r, 4) == 16 * r;
    assert Doubled(r, 5) == 32 * r && Doubled(r, 6) == 64 * r && Doubled(r, 7) == 128 * r;
  }

  /** Bit `k` of the word is bit `k % 8` of its byte `k / 8`. */
  lemma {:induction false} WordBit(buf: seq<Byte>, at: nat, n: nat, k: nat)
    requires at + n <= |buf| && k < 8 * n
    ensures Bit(Word(buf, at, n), k) <==> BitAt(buf, 8 * at + k)
    decreases n
  {
    var rest := Word(buf, at + 1, n - 1);
    ByteBound();
    Times256(rest);
    BitMix(buf[at], rest, 8, k);
    if k >= 8 {
      WordBit(buf, at + 1, n - 1, k - 8);
    }
  }

  lemma {:induction false} WordBound(buf: seq<Byte>, at: nat, n: nat)
    requires at + n <= |buf|
    ensures Word(buf, at, n) < Doubled(1, 8 * n)
    decreases n
  {
    if n > 0 {
      WordBound(buf, at + 1, n - 1);
      DoubledSum(1, 8 * (n - 1), 8);
      Times256(Doubled(1, 8 * (n - 1)));
    }
  }

  lemma {:induction false} DoubledSum(x: nat, m: nat, n: nat)
    ensures Doubled(Doubled(x, m), n) == Doubled(x, m + n)
    decreases n
  {
    if n > 0 {
      DoubledSum(x, m, n - 1);
    }
  }

  lemma {:induction false} OnesSet(x: nat, n: nat, k: nat)
    requires k < n && x + 1 == Doubled(1, n)
    ensures Bit(x, k)
  {
    var h := Doubled(1, n - 1);
    assert x + 1 == 2 * h;
    Mix(1, h - 1);
    if k > 0 {
      OnesSet(h - 1, n - 1, k - 1);
    }
  }

  lemma {:induction false} ZeroBelow(x: nat, n: nat) returns (k: nat)
    requires x < Doubled(1, n) - 1
    ensures k < n && !Bit(x, k)
  {
    if x % 2 == 0 {
      k := 0;
    } else {
      var j := ZeroBelow(x / 2, n - 1);
      k := j + 1;
    }
  }

  /** x >> k */
  function Shifted(x: nat, k: nat): nat {
    if k == 0 then x else Shifted(x, k - 1) / 2
  }

  lemma {:induction false} ShiftedHalf(x: nat, k: nat)
    ensures Shifted(x / 2, k) == Shifted(x, k + 1)
  {
    if k > 0 {
      ShiftedHalf(x, k - 1);
    }
  }

  lemma {:induction false} ShiftedBit(x: nat, k: nat)
    ensures Bit(x, k) <==> Shifted(x, k) % 2 == 1
  {
    if k > 0 {
      ShiftedBit(x / 2, k - 1);
      ShiftedHalf(x, k - 1);
    }
  }

  /** __builtin_ctzll(~x): the lowest bit that is not set. */
  method LowestZero(x: nat) returns (k: nat)
    ensures !Bit(x, k) && forall j | 0 <= j < k :: Bit(x, j)
  {
    var y := x;
    k := 0;
    ShiftedBit(x, 0);
    while y % 2 == 1
      invariant y == Shifted(x, k) && (Bit(x, k) <==> y % 2 == 1) && forall j | 0 <= j < k :: Bit(x, j)
      decreases y
    {
      y := y / 2;
      k := k + 1;
      ShiftedBit(x, k);
    }
  }

  /** bm_find_first_zero: the first clear bit of the whole words below `bits`. */
  method FindFirstZero(buf: seq<Byte>, bits: nat) returns (r: int)
    requires bits <= 8 * |buf|
    ensures -1 <= r < bits / 64 * 64
    ensures r == -1 ==> forall j | 0 <= j < bits / 64 * 64 :: BitAt(buf, j)
    ensures r >= 0 ==> !BitAt(buf, r) && forall j | 0 <= j < r :: BitAt(buf, j)
  {
    var words, q := bits / 64, 0;
    while q < words
      invariant 0 <= q <= words && forall j | 0 <= j < 64 * q :: BitAt(buf, j)
    {
      var word := Word(buf, 8 * q, 8);
      WordBits(buf, q);
      if word != UINT64_MAX {
        var k := LowestZero(word);
        return k + 64 * q;
      }
      q := q + 1;
    }
    return -1;
  }

  const UINT64_MAX := 0xffff_ffff_ffff_ffff

  lemma {:induction false} WordBits(buf: seq<Byte>, q: nat)
    requires 64 * q + 64 <= 8 * |buf|
    ensures var word := Word(buf, 8 * q, 8);
            && (forall j | 64 * q <= j < 64 * q + 64 :: BitAt(buf, j) <==> Bit(word, j - 64 * q))
            && (word == UINT64_MAX <==> forall j | 64 * q <= j < 64 * q + 64 :: BitAt(buf, j))
  {
    var word := Word(buf, 8 * q, 8);
    forall k | 0 <= k < 64 ensures Bit(word, k) <==> BitAt(buf, 64 * q + k) {
      WordBit(buf, 8 * q, 8, k);
    }
    forall j | 64 * q <= j < 64 * q + 64 ensures BitAt(buf, j) <==> Bit(word, j - 64 * q) {
      assert Bit(word, j - 64 * q) <==> BitAt(buf, 64 * q + (j - 64 * q));
    }
    WordBound(buf, 8 * q, 8);
    TwoTo64();
    if word == UINT64_MAX {
      forall j | 64 * q <= j < 64 * q + 64 ensures BitAt(buf, j) {
        OnesSet(word, 64, j - 64 * q);
      }
    } else {
      var k := ZeroBelow(word, 64);
      assert !BitAt(buf, 64 * q + k);
    }
  }

  lemma {:induction false} TwoTo64()
    ensures Doubled(1, 64) == UINT64_MAX + 1
  {
    ByteBound();
    DoubledSum(1, 8, 8);
    Times256(256);
    DoubledSum(1, 16, 8);
    Times256(65536);
    DoubledSum(1, 24, 8);
    Times256(0x100_0000);
    DoubledSum(1, 32, 8);
    Times256(0x1_0000_0000);
    DoubledSum(1, 40, 8);
    Times256(0x100_0000_0000);
    DoubledSum(1, 48, 8);
    Times256(0x1_0000_0000_0000);
    DoubledSum(1, 56, 8);
    Times256(0x100_0000_0000_0000);
  }
}
