/** Exclusive or on natural numbers, bit by bit. */
module Bits {

  type Byte = n: nat | n < 256

  function Pow2(k: nat): nat { if k == 0 then 1 else 2 * Pow2(k - 1) }

  lemma Pow2Widths()
    ensures Pow2(8) == 256 && Pow2(32) == 0x1_0000_0000
  {
    assert Pow2(16) == 256 * Pow2(8) == 0x1_0000;
    assert Pow2(24) == 256 * Pow2(16) == 0x100_0000;
  }

  /** The exclusive or of the `width` low bits of `x` and `y`. */
  function Xor(x: nat, y: nat, width: nat): (r: nat)
    ensures r < Pow2(width)
  {
    if width == 0 then 0 else 2 * Xor(x / 2, y / 2, width - 1) + (x % 2 + y % 2) % 2
  }

  /** Bit `k` of a number. */
  function Bit(x: nat, k: nat): nat {
    if k == 0 then x % 2 else Bit(x / 2, k - 1)
  }

  /** Each bit of the result is set exactly when the two bits differ. */
  lemma {:induction false} XorBits(x: nat, y: nat, width: nat, k: nat)
    requires k < width
    ensures Bit(Xor(x, y, width), k) == if Bit(x, k) == Bit(y, k) then 0 else 1
  {
    Halves(Xor(x / 2, y / 2, width - 1), (x % 2 + y % 2) % 2);
    if k > 0 {
      XorBits(x / 2, y / 2, width - 1, k - 1);
    }
  }

  lemma Halves(q: nat, r: nat)
    requires r < 2
    ensures (2 * q + r) / 2 == q && (2 * q + r) % 2 == r
  {
  }

  lemma BitTwice(a: nat, b: nat)
    requires a < 2 && b < 2
    ensures ((a + b) % 2 + b) % 2 == a
  {
  }

  lemma {:induction false} XorInvolutive(x: nat, m: nat, width: nat)
    requires x < Pow2(width)
    ensures Xor(Xor(x, m, width), m, width) == x
  {
    if width > 0 {
      var q, b := Xor(x / 2, m / 2, width - 1), (x % 2 + m % 2) % 2;
      XorInvolutive(x / 2, m / 2, width - 1);
      assert Xor(x, m, width) == 2 * q + b;
      Halves(q, b);
      BitTwice(x % 2, m % 2);
    }
  }

  lemma {:induction false} XorZero(x: nat, width: nat)
    requires x < Pow2(width)
    ensures Xor(x, 0, width) == x
  {
    if width > 0 {
      XorZero(x / 2, width - 1);
    }
  }

  lemma {:induction false} XorSymmetric(x: nat, y: nat, width: nat)
    ensures Xor(x, y, width) == Xor(y, x, width)
  {
    if width > 0 {
      XorSymmetric(x / 2, y / 2, width - 1);
    }
  }

  lemma XorInjective(x: nat, y: nat, a: nat, b: nat, width: nat)
    requires x < Pow2(width) && y < Pow2(width) && a < Pow2(width) && b < Pow2(width)
    requires Xor(x, a, width) == Xor(y, b, width)
    ensures a == b ==> x == y
    ensures x == y ==> a == b
  {
    XorInvolutive(x, a, width);
    XorInvolutive(y, b, width);
    XorSymmetric(x, a, width);
    XorSymmetric(y, b, width);
    XorInvolutive(a, x, width);
    XorInvolutive(b, y, width);
  }
}
