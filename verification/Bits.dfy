/** Bitwise operations on numbers, as JavaScript's 32-bit operators compute them. */
module Bits {

  function Pow2(n: nat): (p: nat)
    ensures p > 0
  {
    if n == 0 then 1 else 2 * Pow2(n - 1)
  }

  function And(x: nat, y: nat): nat {
    if x == 0 || y == 0 then 0 else 2 * And(x / 2, y / 2) + if x % 2 == 1 && y % 2 == 1 then 1 else 0
  }

  function Or(x: nat, y: nat): nat
    decreases x + y
  {
    if x == 0 then y else if y == 0 then x
    else 2 * Or(x / 2, y / 2) + if x % 2 == 1 || y % 2 == 1 then 1 else 0
  }

  function Xor(x: nat, y: nat): nat
    decreases x + y
  {
    if x == 0 then y else if y == 0 then x
    else 2 * Xor(x / 2, y / 2) + if x % 2 != y % 2 then 1 else 0
  }

  function Shl(x: nat, n: nat): nat {
    x * Pow2(n)
  }

  // JavaScript's operators read their operands modulo 2^32 and yield a signed 32-bit value.

  function ToUint32(x: int): nat {
    x % 0x1_0000_0000
  }

  function ToInt32(x: int): int {
    var low := ToUint32(x);
    if low < 0x8000_0000 then low else low - 0x1_0000_0000
  }

  function And32(x: int, y: int): int {
    ToInt32(And(ToUint32(x), ToUint32(y)))
  }

  function Or32(x: int, y: int): int {
    ToInt32(Or(ToUint32(x), ToUint32(y)))
  }

  function Xor32(x: int, y: int): int {
    ToInt32(Xor(ToUint32(x), ToUint32(y)))
  }

  function Shl32(x: int, n: nat): int {
    ToInt32(Shl(ToUint32(x), n))
  }

  /** A mask of n ones keeps the remainder by the power of two. */
  lemma {:induction false} MaskIsRemainder(x: nat, n: nat)
    ensures And(x, Pow2(n) - 1) == x % Pow2(n)
  {
    if x != 0 && n != 0 {
      MaskIsRemainder(x / 2, n - 1);
      var p := Pow2(n - 1);
      assert (Pow2(n) - 1) / 2 == p - 1;
      HalfRemainder(x, p);
    } else if n != 0 {
      assert 0 % Pow2(n) == 0;
    }
  }

  /** Dropping the lowest bit commutes with the remainder. */
  lemma HalfRemainder(x: nat, p: nat)
    requires p > 0
    ensures x % (2 * p) == 2 * ((x / 2) % p) + x % 2
  {
    var q, r := x / 2 / p, (x / 2) % p;
    assert x / 2 == q * p + r;
    assert x == q * (2 * p) + (2 * r + x % 2) by {
      assert x == 2 * (q * p + r) + x % 2;
      assert 2 * (q * p) == q * (2 * p);
    }
    RemainderIs(x, q, 2 * p, 2 * r + x % 2);
  }

  lemma MultipleIsLarge(e: int, d: int)
    requires d >= 0
    ensures e >= 1 ==> e * d >= d
    ensures e <= -1 ==> e * d <= -d
  {
  }

  lemma RemainderIs(x: nat, q: nat, d: nat, r: nat)
    requires d > 0 && r < d && x == q * d + r
    ensures x % d == r && x / d == q
  {
    assert x == (x / d) * d + x % d;
    assert (x / d - q) * d == (x / d) * d - q * d;
    MultipleIsLarge(x / d - q, d);
  }

  /** Or of disjoint parts is their sum. */
  lemma {:induction false} OrOfParts(x: nat, y: nat, n: nat)
    requires y < Pow2(n)
    ensures Or(Shl(x, n), y) == Shl(x, n) + y
  {
    if x == 0 {
    } else if n == 0 {
    } else {
      OrOfParts(x, y / 2, n - 1);
      assert Shl(x, n) == 2 * Shl(x, n - 1) by {
        assert x * (2 * Pow2(n - 1)) == 2 * (x * Pow2(n - 1));
      }
      assert Shl(x, n) > 0 by {
        assert x * Pow2(n) >= 1 * 1;
      }
    }
  }

  lemma OrIsZero(x: nat, y: nat)
    ensures Or(x, y) == 0 <==> x == 0 && y == 0
    decreases x + y
  {
  }

  lemma XorIsZero(x: nat, y: nat)
    ensures Xor(x, y) == 0 <==> x == y
    decreases x + y
  {
  }

  const HALF := 0x8000_0000

  lemma Fits(x: nat)
    requires x < HALF
    ensures ToUint32(x) == x && ToInt32(x) == x
  {
  }

  lemma Or32Is(x: nat, y: nat, z: nat)
    requires x < HALF && y < HALF && z < HALF && Or(x, y) == z
    ensures Or32(x, y) == z
  {
    Fits(x);
    Fits(y);
    Fits(z);
  }

  lemma And32Is(x: nat, y: nat, z: nat)
    requires x < HALF && y < HALF && z < HALF && And(x, y) == z
    ensures And32(x, y) == z
  {
    Fits(x);
    Fits(y);
    Fits(z);
  }

  lemma Xor32Is(x: nat, y: nat, z: nat)
    requires x < HALF && y < HALF && z < HALF && Xor(x, y) == z
    ensures Xor32(x, y) == z
  {
    Fits(x);
    Fits(y);
    Fits(z);
  }

  lemma Shl32Is(x: nat, n: nat)
    requires x < HALF && x * Pow2(n) < HALF
    ensures Shl32(x, n) == x * Pow2(n)
  {
  }

  /** A 31-bit number is put together by or without wrapping. */
  lemma Or32OfParts(x: nat, y: nat, n: nat)
    requires y < Pow2(n) && Shl(x, n) + y < HALF
    ensures Or32(Shl(x, n), y) == Shl(x, n) + y
  {
    OrOfParts(x, y, n);
    Or32Is(Shl(x, n), y, Shl(x, n) + y);
  }

  lemma {:induction false} OrFits(x: nat, y: nat, n: nat)
    requires x < Pow2(n) && y < Pow2(n)
    ensures Or(x, y) < Pow2(n)
  {
    if n > 0 && x > 0 && y > 0 {
      OrFits(x / 2, y / 2, n - 1);
    }
  }

  lemma {:induction false} XorFits(x: nat, y: nat, n: nat)
    requires x < Pow2(n) && y < Pow2(n)
    ensures Xor(x, y) < Pow2(n)
  {
    if n > 0 && x > 0 && y > 0 {
      XorFits(x / 2, y / 2, n - 1);
    }
  }
}
