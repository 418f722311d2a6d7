/** C's shift, mask and or on non-negative numbers, defined and reasoned about bit by bit. */
module Bits {

  /** Bit `i` of `x`, the least significant being bit 0. */
  predicate Bit(x: nat, i: nat)
    decreases i
  {
    if i == 0 then x % 2 == 1 else Bit(x / 2, i - 1)
  }

  /** `x >> k` */
  function Shr(x: nat, k: nat): nat
    decreases k
  {
    if k == 0 then x else Shr(x / 2, k - 1)
  }

  /** `x << k` */
  function Shl(x: nat, k: nat): nat
    decreases k
  {
    if k == 0 then x else Shl(2 * x, k - 1)
  }

  /** The low `n` bits of `x`: what storing into an unsigned type of `n` bits keeps. */
  function Low(x: nat, n: nat): nat
    decreases n
  {
    if n == 0 then 0 else x % 2 + 2 * Low(x / 2, n - 1)
  }

  /** `x | y` */
  function Or(x: nat, y: nat): nat {
    if x == 0 && y == 0 then 0
    else (if x % 2 == 1 || y % 2 == 1 then 1 else 0) + 2 * Or(x / 2, y / 2)
  }

  function Pow2(n: nat): (p: nat)
    ensures p >= 1
  {
    if n == 0 then 1 else 2 * Pow2(n - 1)
  }

  lemma {:induction false} BitOfZero(i: nat)
    ensures !Bit(0, i)
  {
    if i > 0 { BitOfZero(i - 1); }
  }

  lemma {:induction false} BitOfShr(x: nat, k: nat, i: nat)
    ensures Bit(Shr(x, k), i) == Bit(x, i + k)
    decreases k
  {
    if k > 0 { BitOfShr(x / 2, k - 1, i); }
  }

  lemma {:induction false} BitOfShl(x: nat, k: nat, i: nat)
    ensures Bit(Shl(x, k), i) == (i >= k && Bit(x, i - k))
    decreases k
  {
    if k > 0 {
      BitOfShl(2 * x, k - 1, i);
      if i >= k { assert Bit(2 * x, i - k + 1) == Bit(x, i - k); }
    }
  }

  lemma {:induction false} BitOfLow(x: nat, n: nat, i: nat)
    ensures Bit(Low(x, n), i) == (i < n && Bit(x, i))
    decreases n
  {
    if n == 0 {
      BitOfZero(i);
    } else if i > 0 {
      BitOfLow(x / 2, n - 1, i - 1);
    }
  }

  lemma {:induction false} BitOfOr(x: nat, y: nat, i: nat)
    ensures Bit(Or(x, y), i) == (Bit(x, i) || Bit(y, i))
    decreases i
  {
    if x == 0 && y == 0 {
      BitOfZero(i);
    } else if i > 0 {
      BitOfOr(x / 2, y / 2, i - 1);
    }
  }

  lemma {:induction false} HighBitsZero(x: nat, n: nat, i: nat)
    requires x < Pow2(n) && n <= i
    ensures !Bit(x, i)
    decreases n
  {
    if n == 0 {
      BitOfZero(i);
    } else {
      HighBitsZero(x / 2, n - 1, i - 1);
    }
  }

  lemma {:induction false} LowBound(x: nat, n: nat)
    ensures Low(x, n) < Pow2(n)
    decreases n
  {
    if n > 0 { LowBound(x / 2, n - 1); }
  }

  lemma {:induction false} OrBound(x: nat, y: nat, n: nat)
    requires x < Pow2(n) && y < Pow2(n)
    ensures Or(x, y) < Pow2(n)
    decreases n
  {
    if n > 0 { OrBound(x / 2, y / 2, n - 1); }
  }

  lemma {:induction false} ShrBound(x: nat, k: nat, n: nat)
    requires x < Pow2(n + k)
    ensures Shr(x, k) < Pow2(n)
    decreases k
  {
    if k > 0 { ShrBound(x / 2, k - 1, n); }
  }

  lemma {:induction false} ShlDoubles(q: nat, k: nat)
    ensures Shl(2 * q, k) == 2 * Shl(q, k)
    decreases k
  {
    if k > 0 { ShlDoubles(2 * q, k - 1); }
  }

  lemma {:induction false} ShlMonotone(q: nat, r: nat, k: nat)
    requires q <= r
    ensures Shl(q, k) <= Shl(r, k)
    decreases k
  {
    if k > 0 { ShlMonotone(2 * q, 2 * r, k - 1); }
  }

  /** `x >> k` is the quotient: shifted back it brackets `x`. */
  lemma {:induction false} ShrIsQuotient(x: nat, k: nat)
    ensures Shl(Shr(x, k), k) <= x < Shl(Shr(x, k) + 1, k)
    decreases k
  {
    if k > 0 {
      var q := Shr(x / 2, k - 1);
      ShrIsQuotient(x / 2, k - 1);
      ShlDoubles(q, k - 1);
      ShlDoubles(q + 1, k - 1);
    }
  }

  /** Numbers below 2^n with the same first n bits are equal. */
  lemma {:induction false} SameBits(x: nat, y: nat, n: nat)
    requires x < Pow2(n) && y < Pow2(n) && forall i: nat | i < n :: Bit(x, i) == Bit(y, i)
    ensures x == y
    decreases n
  {
    if n > 0 {
      assert Bit(x, 0) == Bit(y, 0);
      forall i: nat | i < n - 1 ensures Bit(x / 2, i) == Bit(y / 2, i) {
        assert Bit(x, i + 1) == Bit(y, i + 1);
      }
      SameBits(x / 2, y / 2, n - 1);
    }
  }

  lemma SmallPowers()
    ensures Pow2(4) == 16 && Pow2(8) == 256 && Pow2(11) == 2048 && Pow2(16) == 65536
  {
    assert Pow2(4) == 2 * Pow2(3) && Pow2(3) == 2 * Pow2(2) && Pow2(2) == 2 * Pow2(1) && Pow2(1) == 2;
    assert Pow2(8) == 2 * Pow2(7) && Pow2(7) == 2 * Pow2(6) && Pow2(6) == 2 * Pow2(5) && Pow2(5) == 2 * Pow2(4);
    assert Pow2(11) == 2 * Pow2(10) && Pow2(10) == 2 * Pow2(9) && Pow2(9) == 2 * Pow2(8);
    assert Pow2(16) == 2 * Pow2(15) && Pow2(15) == 2 * Pow2(14) && Pow2(14) == 2 * Pow2(13) && Pow2(13) == 2 * Pow2(12)
           && Pow2(12) == 2 * Pow2(11);
  }

  /** Conversion to `unsigned short`. */
  function U16(x: nat): (r: nat)
    ensures r < 65536
  {
    x % 65536
  }

  lemma {:induction false} LowAndRest(x: nat, n: nat)
    ensures x == Low(x, n) + Shl(Shr(x, n), n)
    decreases n
  {
    if n > 0 {
      LowAndRest(x / 2, n - 1);
      ShlDoubles(Shr(x / 2, n - 1), n - 1);
    }
  }

  lemma {:induction false} ShlIsProduct(q: nat, n: nat)
    ensures Shl(q, n) == q * Pow2(n)
    decreases n
  {
    if n > 0 {
      ShlIsProduct(2 * q, n - 1);
      assert (2 * q) * Pow2(n - 1) == q * (2 * Pow2(n - 1));
    }
  }

  lemma BitOfRemainder(x: nat, n: nat, i: nat)
    requires Pow2(n) == 65536
    ensures Bit(x % 65536, i) == (i < n && Bit(x, i))
  {
    var q := Shr(x, n);
    LowAndRest(x, n);
    ShlIsProduct(q, n);
    LowBound(x, n);
    assert q * Pow2(n) == 65536 * q;
    BitOfLow(x, n, i);
  }

  lemma BitOfU16(x: nat, i: nat)
    ensures Bit(U16(x), i) == (i < 16 && Bit(x, i))
  {
    SmallPowers();
    BitOfRemainder(x, 16, i);
  }

  lemma BitOfDiv32(x: nat, i: nat)
    ensures Bit(x / 32, i) == Bit(x, i + 5)
  {
    var x1 := x / 2;
    var x2 := x1 / 2;
    var x3 := x2 / 2;
    var x4 := x3 / 2;
    assert x4 / 2 == x / 32;
    assert Bit(x, i + 5) == Bit(x1, i + 4) == Bit(x2, i + 3) == Bit(x3, i + 2) == Bit(x4, i + 1) == Bit(x4 / 2, i);
  }
}
