/** `cv.bitwise_and` and `cv.bitwise_or` on 8-bit pixels. The symmetry
    analyzer applies them to an area-resized edge map, whose pixels are not
    only 0 and 255, so the model keeps the bit-level definitions rather than
    reading them as logical AND and OR. */
module Bitwise {
  import opened Edges

  function Pow2(n: nat): (r: nat)
    ensures r >= 1
  {
    if n == 0 then 1 else 2 * Pow2(n - 1)
  }

  /** Bitwise AND of two naturals, lowest bit first. */
  function AndNat(a: nat, b: nat): (r: nat)
    ensures r <= a && r <= b
    decreases a
  {
    if a == 0 || b == 0 then 0
    else 2 * AndNat(a / 2, b / 2) + (if a % 2 == 1 && b % 2 == 1 then 1 else 0)
  }

  /** Bitwise OR of two naturals, lowest bit first. */
  function OrNat(a: nat, b: nat): (r: nat)
    ensures a <= r && b <= r && r <= a + b
    decreases a + b
  {
    if a == 0 then b
    else if b == 0 then a
    else 2 * OrNat(a / 2, b / 2) + (if a % 2 == 1 || b % 2 == 1 then 1 else 0)
  }

  /** The OR of two `n`-bit naturals has `n` bits. */
  lemma {:induction false} OrNatBelow(a: nat, b: nat, n: nat)
    requires a < Pow2(n) && b < Pow2(n)
    ensures OrNat(a, b) < Pow2(n)
    decreases n
  {
    if n > 0 && a > 0 && b > 0 {
      OrNatBelow(a / 2, b / 2, n - 1);
    }
  }

  lemma Pow2Byte()
    ensures Pow2(8) == 256
  {
  }

  function BitAnd(a: byte, b: byte): byte
  {
    AndNat(a as nat, b as nat) as byte
  }

  function BitOr(a: byte, b: byte): byte
  {
    Pow2Byte();
    OrNatBelow(a as nat, b as nat, 8);
    OrNat(a as nat, b as nat) as byte
  }

  /** `x & x == x`. */
  lemma {:induction false} AndNatSelf(a: nat)
    ensures AndNat(a, a) == a
    decreases a
  {
    if a > 0 {
      AndNatSelf(a / 2);
    }
  }

  /** `x | x == x`. */
  lemma {:induction false} OrNatSelf(a: nat)
    ensures OrNat(a, a) == a
    decreases a
  {
    if a > 0 {
      OrNatSelf(a / 2);
    }
  }

  /** The pixel laws the IoU uses: AND and OR of a pixel with itself give
      the pixel; an AND is non-zero only where both pixels are, an OR is
      non-zero exactly where either is. */
  lemma PixelLaws(a: byte, b: byte)
    ensures BitAnd(a, a) == a && BitOr(a, a) == a
    ensures BitAnd(a, b) != 0 ==> a != 0 && b != 0
    ensures BitOr(a, b) != 0 <==> a != 0 || b != 0
  {
    AndNatSelf(a as nat);
    OrNatSelf(a as nat);
  }

  /** Non-binary pixels can AND to 0. */
  lemma AndDisjointBits()
    ensures BitAnd(1, 2) == 0 && BitOr(1, 2) == 3
  {
    assert AndNat(0, 1) == 0;
    assert OrNat(0, 1) == 1;
  }
}
