/** core/hashutil.py: the 32-bit FNV-1a digest used for every block signature. */
module Fnv {
  import opened Bits

  const MODULUS: nat := 0x1_0000_0000
  const OFFSET: nat := 2166136261
  const PRIME: nat := 16777619
  /** PRIME * INVERSE == 3513497 * MODULUS + 1: the multiplier is a unit of the 32-bit ring. */
  const INVERSE: nat := 899433627

  type Word = n: nat | n < 0x1_0000_0000

  /** `h ^= b` */
  function XorWord(h: Word, b: Byte): Word {
    Pow2Widths();
    Xor(h, b, 32)
  }

  /** `h = (h * 16777619) & 0xFFFFFFFF` */
  function Multiply(h: Word): Word {
    h * PRIME % MODULUS
  }

  function Step(h: Word, b: Byte): Word {
    Multiply(XorWord(h, b))
  }

  function Fold(h: Word, s: seq<Byte>): Word {
    if s == [] then h else Step(Fold(h, s[..|s| - 1]), s[|s| - 1])
  }

  function HexDigit(n: nat): char
    requires n < 16
  {
    "0123456789abcdef"[n]
  }

  /** The `width` low-order hexadecimal digits of `n`, zero padded. */
  function Hex(n: nat, width: nat): (s: string)
    ensures |s| == width
  {
    if width == 0 then "" else Hex(n / 16, width - 1) + [HexDigit(n % 16)]
  }

  predicate IsHex(s: string) {
    forall i :: 0 <= i < |s| ==> s[i] in "0123456789abcdef"
  }

  function DigitValue(c: char): nat {
    if '0' <= c <= '9' then c as int - '0' as int else if 'a' <= c <= 'f' then c as int - 'a' as int + 10 else 0
  }

  /** `int(s, 16)` */
  function ParseHex(s: string): nat {
    if s == [] then 0 else 16 * ParseHex(s[..|s| - 1]) + DigitValue(s[|s| - 1])
  }

  function Pow16(k: nat): nat { if k == 0 then 1 else 16 * Pow16(k - 1) }

  function Digest(text: seq<Byte>): string {
    Hex(Fold(OFFSET, text), 8)
  }

  /** The source's loop. */
  method Fnv1a32(text: seq<Byte>) returns (digest: string)
    ensures digest == Digest(text)
  {
    var h: Word := OFFSET;
    for i := 0 to |text|
      invariant h == Fold(OFFSET, text[..i])
    {
      assert text[..i + 1][..i] == text[..i];
      h := Multiply(XorWord(h, text[i]));
    }
    assert text[..|text|] == text;
    digest := Hex(h, 8);
  }

  /** Published test vectors of 32-bit FNV-1a: the empty text gives 811c9dc5 and "a" gives e40c292c. */
  lemma TestVectors(text: seq<Byte>)
    ensures text == [] ==> ParseHex(Digest(text)) == 0x811c9dc5
    ensures |text| == 1 && text[0] == 0x61 ==> ParseHex(Digest(text)) == 0xe40c292c
  {
    DigestShape(text);
    FoldShort(OFFSET, text);
    XorOfA();
    MultiplyOfA();
  }

  lemma FoldShort(h: Word, text: seq<Byte>)
    ensures text == [] ==> Fold(h, text) == h
    ensures |text| == 1 ==> Fold(h, text) == Multiply(XorWord(h, text[0]))
  {
    if |text| == 1 {
      assert text[..0] == [];
    }
  }

  lemma MultiplyOfA()
    ensures Multiply(0x811c9da4) == 0xe40c292c
  {
  }

  lemma XorOfA()
    ensures XorWord(0x811c9dc5, 0x61) == 0x811c9da4
  {
    Pow2Widths();
    assert Pow2(25) == 2 * Pow2(24);
    XorZero(0x102393b, 25);
    // the seven low bits of 0x61
    assert Xor(33845879, 1, 26) == 33845878;
    assert Xor(67691758, 3, 27) == 67691757;
    assert Xor(135383516, 6, 28) == 135383514;
    assert Xor(270767032, 12, 29) == 270767028;
    assert Xor(541534065, 24, 30) == 541534057;
    assert Xor(1083068130, 48, 31) == 1083068114;
    assert Xor(2166136261, 97, 32) == 2166136228;
  }

  lemma DigitRoundTrip(n: nat)
    requires n < 16
    ensures HexDigit(n) in "0123456789abcdef" && DigitValue(HexDigit(n)) == n
  {
  }

  lemma {:induction false} HexRoundTrip(n: nat, width: nat)
    requires n < Pow16(width)
    ensures IsHex(Hex(n, width)) && ParseHex(Hex(n, width)) == n
  {
    if width > 0 {
      HexRoundTrip(n / 16, width - 1);
      var s := Hex(n, width);
      assert s[..width - 1] == Hex(n / 16, width - 1);
      DigitRoundTrip(n % 16);
    }
  }

  lemma MultiplyInjective(x: Word, y: Word)
    requires Multiply(x) == Multiply(y)
    ensures x == y
  {
    Undo(x);
    Undo(y);
  }

  lemma Undo(x: Word)
    ensures x * PRIME % MODULUS * INVERSE % MODULUS == x
  {
    var q, r := x * PRIME / MODULUS, x * PRIME % MODULUS;
    assert x * PRIME == q * MODULUS + r;
    assert PRIME * INVERSE == 3513497 * MODULUS + 1;
    var k := 3513497 * x - q * INVERSE;
    calc {
      r * INVERSE;
      (x * PRIME - q * MODULUS) * INVERSE;
      x * (PRIME * INVERSE) - q * MODULUS * INVERSE;
      x + k * MODULUS;
    }
    ModShift(x, k);
  }

  lemma ModShift(x: Word, k: int)
    ensures (x + k * MODULUS) % MODULUS == x
  {
  }

  /** Each step is a bijection in the state for a fixed byte and in the byte for a fixed state. */
  lemma StepInjective(g: Word, h: Word, b: Byte, c: Byte)
    requires Step(g, b) == Step(h, c)
    ensures b == c ==> g == h
    ensures g == h ==> b == c
  {
    MultiplyInjective(XorWord(g, b), XorWord(h, c));
    Pow2Widths();
    XorInjective(g, h, b, c, 32);
  }

  lemma {:induction false} FoldDistinguishes(s: seq<Byte>, t: seq<Byte>, k: nat)
    requires k < |s| == |t| && s[k] != t[k]
    requires forall i :: 0 <= i < |s| && i != k ==> s[i] == t[i]
    ensures Fold(OFFSET, s) != Fold(OFFSET, t)
  {
    var n := |s| - 1;
    if k < n {
      FoldDistinguishes(s[..n], t[..n], k);
    } else {
      assert s[..n] == t[..n];
    }
    if Fold(OFFSET, s) == Fold(OFFSET, t) {
      StepInjective(Fold(OFFSET, s[..n]), Fold(OFFSET, t[..n]), s[n], t[n]);
    }
  }

  lemma DigestShape(text: seq<Byte>)
    ensures |Digest(text)| == 8 && IsHex(Digest(text))
    ensures ParseHex(Digest(text)) == Fold(OFFSET, text)
  {
    assert Pow16(8) == MODULUS;
    HexRoundTrip(Fold(OFFSET, text), 8);
  }

  /** One changed byte always changes the digest. */
  lemma SingleByteChangeDetected(s: seq<Byte>, t: seq<Byte>, k: nat)
    requires k < |s| == |t| && s[k] != t[k]
    requires forall i :: 0 <= i < |s| && i != k ==> s[i] == t[i]
    ensures Digest(s) != Digest(t)
  {
    FoldDistinguishes(s, t, k);
    DigestShape(s);
    DigestShape(t);
  }
}
