/** The 128-bit FNV-1a fingerprint of the audit log, and its printed form. */
module Fingerprint {

  type Byte = n: nat | n < 256

  const MODULUS: nat := 0x1_0000_0000_0000_0000_0000_0000_0000_0000
  const OFFSET: nat := 0x6c62272e07bb0142_62b821756295c58d
  const PRIME: nat := 0x0000000001000000_000000000000013b

  /** A 128-bit word. */
  type Word = n: nat | n < MODULUS

  function Pow2(k: nat): nat { if k == 0 then 1 else 2 * Pow2(k - 1) }

  /** Exclusive or of the low `k` bits, bit by bit. */
  function Xor(x: nat, y: nat, k: nat): (r: nat)
    ensures r < Pow2(k)
  {
    if k == 0 then 0 else 2 * Xor(x / 2, y / 2, k - 1) + (x % 2 + y % 2) % 2
  }

  function Xor8(x: Byte, b: Byte): Byte {
    assert Pow2(8) == 256;
    Xor(x, b, 8)
  }

  /** Exclusive or with a byte changes the low eight bits only. */
  function XorByte(h: Word, b: Byte): Word { h - h % 256 + Xor8(h % 256, b) }

  function WrappingMul(h: Word): Word { h * PRIME % MODULUS }

  function Mix(h: Word, b: Byte): Word { WrappingMul(XorByte(h, b)) }

  /** The fingerprint of `data`, started from `h`. */
  function Fold(h: Word, data: seq<Byte>): Word {
    if data == [] then h else Mix(Fold(h, data[..|data| - 1]), data[|data| - 1])
  }

  function Fnv(data: seq<Byte>): Word { Fold(OFFSET, data) }

  method Fnv1a128(data: seq<Byte>) returns (hash: Word)
    ensures hash == Fnv(data)
  {
    hash := OFFSET;
    for i := 0 to |data|
      invariant hash == Fold(OFFSET, data[..i])
    {
      assert data[..i + 1][..i] == data[..i];
      hash := XorByte(hash, data[i]);
      hash := hash * PRIME % MODULUS;
    }
    assert data[..|data|] == data;
  }

  // ---------------------------------------------------------------------
  // Every step can be undone
  // ---------------------------------------------------------------------

  const PRIME_INVERSE: nat := 0xb1041ad2562ff2ff2ff2ff2ff2ff2ff3

  lemma Inverse()
    ensures PRIME * PRIME_INVERSE == 0xb1041ad2562ff2ff2ff3d9 * MODULUS + 1
  {
  }

  function UnMul(h: Word): Word { h * PRIME_INVERSE % MODULUS }

  lemma ModDiff(a: int, q: int, r: int)
    requires a == q * MODULUS + r && 0 <= r < MODULUS
    ensures a % MODULUS == r
  {
  }

  lemma MulRoundTrip(h: Word)
    ensures UnMul(WrappingMul(h)) == h
  {
    var q, r := h * PRIME / MODULUS, WrappingMul(h);
    assert h * PRIME == q * MODULUS + r;
    Inverse();
    assert r * PRIME_INVERSE == h * (PRIME * PRIME_INVERSE) - q * MODULUS * PRIME_INVERSE;
    ModDiff(r * PRIME_INVERSE, h * 0xb1041ad2562ff2ff2ff3d9 - q * PRIME_INVERSE, h);
  }

  lemma UnMulRoundTrip(h: Word)
    ensures WrappingMul(UnMul(h)) == h
  {
    var q, r := h * PRIME_INVERSE / MODULUS, UnMul(h);
    assert h * PRIME_INVERSE == q * MODULUS + r;
    Inverse();
    assert r * PRIME == h * (PRIME * PRIME_INVERSE) - q * MODULUS * PRIME;
    ModDiff(r * PRIME, h * 0xb1041ad2562ff2ff2ff3d9 - q * PRIME, h);
  }

  lemma XorBits(x: nat, y: nat, k: nat)
    requires k > 0
    ensures Xor(x, y, k) / 2 == Xor(x / 2, y / 2, k - 1)
    ensures Xor(x, y, k) % 2 == (x % 2 + y % 2) % 2
  {
    var q, bit := Xor(x / 2, y / 2, k - 1), (x % 2 + y % 2) % 2;
    assert Xor(x, y, k) == 2 * q + bit && 0 <= bit < 2;
  }

  lemma BitFlips(a: nat, b: nat)
    requires a < 2 && b < 2
    ensures ((a + b) % 2 + b) % 2 == a
  {
  }

  lemma {:induction false} XorUndoes(x: nat, y: nat, k: nat)
    requires x < Pow2(k)
    ensures Xor(Xor(x, y, k), y, k) == x
  {
    if k > 0 {
      var r := Xor(x, y, k);
      XorUndoes(x / 2, y / 2, k - 1);
      XorBits(x, y, k);
      XorBits(r, y, k);
      BitFlips(x % 2, y % 2);
    }
  }

  lemma {:induction false} XorSeparates(x: nat, a: nat, b: nat, k: nat)
    requires a < Pow2(k) && b < Pow2(k) && Xor(x, a, k) == Xor(x, b, k)
    ensures a == b
  {
    if k > 0 {
      XorBits(x, a, k);
      XorBits(x, b, k);
      XorSeparates(x / 2, a / 2, b / 2, k - 1);
      BitFlips(a % 2, x % 2);
      BitFlips(b % 2, x % 2);
    }
  }

  lemma LowByte(h: nat, low: nat)
    requires low < 256
    ensures (h - h % 256 + low) % 256 == low
    ensures h - h % 256 + low - low == h - h % 256
  {
  }

  lemma XorTwice(h: Word, b: Byte)
    ensures XorByte(XorByte(h, b), b) == h
  {
    LowByte(h, Xor8(h % 256, b));
    assert Pow2(8) == 256;
    XorUndoes(h % 256, b, 8);
  }

  lemma MixRoundTrip(h: Word, b: Byte)
    ensures XorByte(UnMul(Mix(h, b)), b) == h
    ensures Mix(XorByte(UnMul(h), b), b) == h
  {
    MulRoundTrip(XorByte(h, b));
    XorTwice(h, b);
    XorTwice(UnMul(h), b);
    UnMulRoundTrip(h);
  }

  /** Takes `data` back out of a fingerprint. */
  function Undo(h: Word, data: seq<Byte>): Word
    decreases |data|
  {
    if data == [] then h
    else Undo(XorByte(UnMul(h), data[|data| - 1]), data[..|data| - 1])
  }

  /** Folding in any bytes is a one-to-one mapping of words onto words. */
  lemma {:induction false} FoldRoundTrip(h: Word, data: seq<Byte>)
    ensures Undo(Fold(h, data), data) == h
    ensures Fold(Undo(h, data), data) == h
    decreases |data|
  {
    if data != [] {
      var front, b := data[..|data| - 1], data[|data| - 1];
      MixRoundTrip(Fold(h, front), b);
      FoldRoundTrip(h, front);
      MixRoundTrip(h, b);
      FoldRoundTrip(XorByte(UnMul(h), b), front);
    }
  }

  lemma {:induction false} FoldConcat(h: Word, p: seq<Byte>, s: seq<Byte>)
    ensures Fold(h, p + s) == Fold(Fold(h, p), s)
  {
    if s == [] {
      assert p + s == p;
    } else {
      assert (p + s)[..|p + s| - 1] == p + s[..|s| - 1];
      FoldConcat(h, p, s[..|s| - 1]);
    }
  }

  /** A common ending neither hides a difference nor makes one. */
  lemma SuffixCancels(p: seq<Byte>, q: seq<Byte>, s: seq<Byte>)
    ensures Fnv(p + s) == Fnv(q + s) <==> Fnv(p) == Fnv(q)
  {
    FoldConcat(OFFSET, p, s);
    FoldConcat(OFFSET, q, s);
    FoldRoundTrip(Fnv(p), s);
    FoldRoundTrip(Fnv(q), s);
  }

  lemma MixSeparates(h: Word, a: Byte, b: Byte)
    requires Mix(h, a) == Mix(h, b)
    ensures a == b
  {
    MulRoundTrip(XorByte(h, a));
    MulRoundTrip(XorByte(h, b));
    assert Pow2(8) == 256;
    XorSeparates(h % 256, a, b, 8);
  }

  /** Inputs of one length that differ in one byte, wherever it is, have different fingerprints. */
  lemma OneByteTells(x: seq<Byte>, y: seq<Byte>, i: nat)
    requires |x| == |y| && i < |x| && x[i] != y[i]
    requires forall j :: 0 <= j < |x| && j != i ==> x[j] == y[j]
    ensures Fnv(x) != Fnv(y)
  {
    var p, s := x[..i], x[i + 1..];
    assert x == (p + [x[i]]) + s && y == (p + [y[i]]) + s;
    SuffixCancels(p + [x[i]], p + [y[i]], s);
    FoldConcat(OFFSET, p, [x[i]]);
    FoldConcat(OFFSET, p, [y[i]]);
    if Fnv(x) == Fnv(y) {
      MixSeparates(Fnv(p), x[i], y[i]);
    }
  }

  /** Bit `j` of an exclusive or is set exactly when the bits differ. */
  function BitAt(n: nat, j: nat): nat { if j == 0 then n % 2 else BitAt(n / 2, j - 1) }

  lemma {:induction false} XorBitAt(x: nat, y: nat, k: nat, j: nat)
    requires j < k
    ensures BitAt(Xor(x, y, k), j) == if BitAt(x, j) == BitAt(y, j) then 0 else 1
  {
    XorBits(x, y, k);
    if j > 0 {
      XorBitAt(x / 2, y / 2, k - 1, j - 1);
    }
  }

  /** The fingerprints of no bytes and of the letter a, as published for FNV-1a with 128 bits. */
  lemma KnownFingerprints()
    ensures Fnv([]) == 0x6c62272e07bb014262b821756295c58d
    ensures Fnv([97]) == 0xd228cb696f1a8caf78912b704e4a8964
  {
    assert [97][..0] == [];
    assert Fnv([97]) == Mix(OFFSET, 97);
    MixLetterA(OFFSET, 97);
  }

  lemma MixIs(h: Word, b: Byte, low: Byte, x: Byte, q: nat, r: nat)
    requires h % 256 == low && Xor8(low, b) == x && (h - low + x) * PRIME == q * MODULUS + r && r < MODULUS
    ensures Mix(h, b) == r
  {
    assert XorByte(h, b) == h - low + x;
    ModDiff((h - low + x) * PRIME, q, r);
  }

  lemma MixLetterA(h: Word, b: Byte)
    requires h == OFFSET && b == 97
    ensures Mix(h, b) == 0xd228cb696f1a8caf78912b704e4a8964
  {
    var low: Byte, x: Byte := h % 256, 0xec;
    XorLetterA(low, b);
    MixIs(h, b, low, x, 0x6c62272e07bb014262b8a6, 0xd228cb696f1a8caf78912b704e4a8964);
  }

  lemma XorSnoc(x: nat, y: nat, k: nat, a: nat, b: nat)
    requires a < 2 && b < 2
    ensures Xor(2 * x + a, 2 * y + b, k + 1) == 2 * Xor(x, y, k) + (a + b) % 2
  {
    assert (2 * x + a) / 2 == x && (2 * y + b) / 2 == y;
  }

  lemma XorLetterA(x: Byte, y: Byte)
    requires x == 0x8d && y == 97
    ensures Xor8(x, y) == 0xec
  {
    XorSnoc(0, 0, 0, 1, 0);
    XorSnoc(1, 0, 1, 0, 1);
    XorSnoc(2, 1, 2, 0, 1);
    XorSnoc(4, 3, 3, 0, 0);
    XorSnoc(8, 6, 4, 1, 0);
    XorSnoc(17, 12, 5, 1, 0);
    XorSnoc(35, 24, 6, 0, 0);
    XorSnoc(70, 48, 7, 1, 1);
  }

  // ---------------------------------------------------------------------
  // The printed form
  // ---------------------------------------------------------------------

  const HEX: string := "0123456789abcdef"

  function HexDigits(n: nat, w: nat): (s: string)
    ensures |s| == w
  {
    if w == 0 then [] else HexDigits(n / 16, w - 1) + [HEX[n % 16]]
  }

  function HexDigitValue(c: char): nat {
    if '0' <= c <= '9' then (c - '0') as nat else if 'a' <= c <= 'f' then (c - 'a') as nat + 10 else 0
  }

  function HexValue(s: string): nat {
    if s == [] then 0 else 16 * HexValue(s[..|s| - 1]) + HexDigitValue(s[|s| - 1])
  }

  function Pow16(w: nat): nat { if w == 0 then 1 else 16 * Pow16(w - 1) }

  lemma {:induction false} HexRoundTrip(n: nat, w: nat)
    requires n < Pow16(w)
    ensures HexValue(HexDigits(n, w)) == n
  {
    if w > 0 {
      assert HexDigitValue(HEX[n % 16]) == n % 16;
      HexRoundTrip(n / 16, w - 1);
    }
  }

  const HALF: nat := 0x1_0000_0000_0000_0000

  lemma SixteenDigits()
    ensures Pow16(16) == HALF
  {
    assert Pow16(4) == 0x1_0000;
    assert Pow16(8) == 0x1_0000_0000;
    assert Pow16(12) == 0x1_0000_0000_0000;
  }

  /** The text stored in audit events: a prefix and the two halves of the fingerprint in hexadecimal. */
  function Printed(data: seq<Byte>): string {
    var hash := Fnv(data);
    "fnv1a:" + HexDigits(hash / HALF, 16) + HexDigits(hash % HALF, 16)
  }

  /** The printed form has 38 characters, and it differs whenever the fingerprint does. */
  lemma PrintedTells(x: seq<Byte>, y: seq<Byte>)
    ensures |Printed(x)| == 38
    ensures Printed(x) == Printed(y) <==> Fnv(x) == Fnv(y)
  {
    SixteenDigits();
    PrintedReads(x);
    PrintedReads(y);
  }

  lemma PrintedReads(data: seq<Byte>)
    ensures |Printed(data)| == 38 && Printed(data)[..6] == "fnv1a:"
    ensures HexValue(Printed(data)[6..22]) * HALF + HexValue(Printed(data)[22..]) == Fnv(data)
  {
    var hash := Fnv(data);
    SixteenDigits();
    HexRoundTrip(hash / HALF, 16);
    HexRoundTrip(hash % HALF, 16);
    assert Printed(data)[6..22] == HexDigits(hash / HALF, 16);
    assert Printed(data)[22..] == HexDigits(hash % HALF, 16);
  }
}
