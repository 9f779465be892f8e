/** 64-bit masks, told on naturals: what `x & ~(a - 1)` is when a is a power of two. */
module Bits {
  const WORD := 0x1_0000_0000_0000_0000

  function Pow2(k: nat): (p: nat)
    ensures p >= 1
  {
    if k == 0 then 1 else 2 * Pow2(k - 1)
  }

  ghost predicate IsPow2(a: int) {
    exists k: nat :: a == Pow2(k)
  }

  /** Bitwise and. */
  function And(x: nat, y: nat): nat
    decreases x
  {
    if x == 0 || y == 0 then 0 else x % 2 * (y % 2) + 2 * And(x / 2, y / 2)
  }

  /** Bitwise complement in a word of `bits` bits. */
  function Not(x: nat, bits: nat): nat
    requires x < Pow2(bits)
  {
    Pow2(bits) - 1 - x
  }

  /** Rounding down, as the reader writes it: clear the bits below the alignment. */
  function RoundDown(x: nat, align: nat): nat
    requires 1 <= align <= WORD
  {
    Pow2Of64();
    And(x, Not(align - 1, 64))
  }

  lemma Pow2Of64()
    ensures Pow2(64) == WORD
  {
    assert Pow2(8) == 0x100;
    Pow2Sum(8, 8);
    Pow2Sum(16, 16);
    Pow2Sum(32, 32);
  }

  lemma {:induction false} Pow2Sum(j: nat, k: nat)
    ensures Pow2(j + k) == Pow2(j) * Pow2(k)
  {
    if j > 0 {
      Pow2Sum(j - 1, k);
    }
  }

  /** A mask of ones keeps every value that fits it. */
  lemma {:induction false} AndOnes(x: nat, bits: nat)
    requires x < Pow2(bits)
    ensures And(x, Pow2(bits) - 1) == x
  {
    if bits > 0 && x > 0 {
      AndOnes(x / 2, bits - 1);
      assert (Pow2(bits) - 1) / 2 == Pow2(bits - 1) - 1 && (Pow2(bits) - 1) % 2 == 1;
    }
  }

  /** Clearing the low k bits of x rounds it down to a multiple of 2^k. */
  lemma {:induction false} ClearLowBits(x: nat, k: nat, bits: nat)
    requires k <= bits && x < Pow2(bits)
    ensures Pow2(k) <= Pow2(bits)
    ensures And(x, Not(Pow2(k) - 1, bits)) == Floor(x, Pow2(k))
    decreases k
  {
    Pow2Monotone(k, bits);
    if k == 0 {
      AndOnes(x, bits);
      FloorOfOne(x);
    } else {
      var p, q := Pow2(k - 1), Pow2(bits - 1);
      Pow2Monotone(k - 1, bits - 1);
      ClearLowBits(x / 2, k - 1, bits - 1);
      AndEven(x, q - p);
      HalfFloor(x, p);
      HalfMask(k, bits);
    }
  }

  /** Without its lowest bit, the mask is that of half the value. */
  lemma HalfMask(k: nat, bits: nat)
    requires 0 < k <= bits && Pow2(k) <= Pow2(bits) && Pow2(k - 1) <= Pow2(bits - 1)
    ensures Not(Pow2(k) - 1, bits) == 2 * Not(Pow2(k - 1) - 1, bits - 1) == 2 * (Pow2(bits - 1) - Pow2(k - 1))
  {
  }

  lemma {:induction false} FloorOfOne(x: nat)
    ensures Floor(x, 1) == x
  {
    if x > 0 { FloorOfOne(x - 1); }
  }

  lemma {:induction false} HalfFloor(x: nat, p: nat)
    requires p >= 1
    ensures Floor(x, 2 * p) == 2 * Floor(x / 2, p)
    decreases x
  {
    if x >= 2 * p {
      HalfFloor(x - 2 * p, p);
      assert (x - 2 * p) / 2 == x / 2 - p;
    }
  }

  /** Masking with an even number clears the lowest bit. */
  lemma AndEven(x: nat, half: nat)
    ensures And(x, 2 * half) == 2 * And(x / 2, half)
  {
    assert 2 * half / 2 == half && 2 * half % 2 == 0;
  }

  lemma {:induction false} Pow2Monotone(j: nat, k: nat)
    requires j <= k
    ensures Pow2(j) <= Pow2(k)
  {
    if j < k {
      Pow2Monotone(j, k - 1);
    }
  }

  lemma DivideUnique(x: nat, n: nat, q: nat, r: nat)
    requires n > 0 && x == n * q + r && r < n
    ensures x % n == r && x / n == q
  {
    var q', r' := x / n, x % n;
    assert x == n * q' + r' && 0 <= r' < n;
    if q' < q { ProductGap(n, q', q); } else if q < q' { ProductGap(n, q, q'); }
  }

  lemma {:induction false} ProductGap(n: nat, a: nat, b: nat)
    requires a < b
    ensures n * a + n <= n * b
    decreases b
  {
    if a + 1 < b {
      ProductGap(n, a, b - 1);
      assert n * (b - 1) + n == n * b;
    } else {
      assert n * (a + 1) == n * a + n;
    }
  }

  lemma SmallExponent(k: nat, bits: nat)
    requires Pow2(k) <= Pow2(bits)
    ensures k <= bits
  {
    if k > bits {
      Pow2Monotone(bits + 1, k);
    }
  }

  /** The whole blocks of x: the largest multiple of `block` not above x. */
  function Floor(x: nat, block: nat): (f: nat)
    requires block > 0
    ensures f <= x < f + block
    decreases x
  {
    if x < block then 0 else block + Floor(x - block, block)
  }

  /** x starts a block. */
  predicate Aligned(x: nat, block: nat)
    requires block > 0
  {
    Floor(x, block) == x
  }

  lemma {:induction false} FloorIsDivision(x: nat, block: nat)
    requires block > 0
    ensures Floor(x, block) == x - x % block == block * (x / block)
    decreases x
  {
    if x >= block {
      FloorIsDivision(x - block, block);
      var q, r := (x - block) / block, (x - block) % block;
      assert block * (q + 1) == block * q + block;
      DivideUnique(x, block, q + 1, r);
    } else {
      DivideUnique(x, block, 0, x);
    }
  }

  lemma {:induction false} FloorIsAligned(x: nat, block: nat)
    requires block > 0
    ensures Aligned(Floor(x, block), block)
    decreases x
  {
    if x >= block {
      FloorIsAligned(x - block, block);
    }
  }

  /** No block start lies between a number's floor and the number. */
  lemma {:induction false} FloorIsLargest(start: nat, x: nat, block: nat)
    requires block > 0 && Aligned(start, block) && start <= x
    ensures start <= Floor(x, block)
    decreases x
  {
    if block <= start {
      FloorIsLargest(start - block, x - block, block);
    }
  }

  /** The reader's mask arithmetic is rounding down to a block start. */
  lemma RoundDownIsFloor(x: nat, align: nat)
    requires IsPow2(align) && align <= WORD && x < WORD
    ensures RoundDown(x, align) == Floor(x, align)
  {
    var k: nat :| align == Pow2(k);
    Pow2Of64();
    SmallExponent(k, 64);
    ClearLowBits(x, k, 64);
  }
}
