/** Bytes as the Android code sees them: a Kotlin `ByteArray` element is a
    signed 8-bit value; the model keeps its bit pattern 0..255, so Kotlin's
    `b.toInt() and 0xFF` is the byte itself and `b.toInt()` is `SignedByte(b)`.
    Kotlin `Int` bit operations are modelled on non-negative bit patterns. */
module Bytes {

  type byte = x: int | 0 <= x < 256

  datatype ByteOrder = LittleEndian | BigEndian

  /** Kotlin `Byte.toInt()`: sign extension of the bit pattern. */
  function SignedByte(b: byte): (r: int)
    ensures -128 <= r < 128
    ensures (r - b) % 256 == 0
    ensures r >= 0 <==> b < 128
  {
    if b < 128 then b else b - 256
  }

  /** The little-endian 16-bit word `lo | hi << 8`. */
  function LE16(lo: byte, hi: byte): (r: nat)
    ensures r < 0x1_0000
    ensures r % 256 == lo && r / 256 == hi
  {
    lo + 256 * hi
  }

  function Pow256(n: nat): (r: nat)
    ensures r >= 1
  {
    if n == 0 then 1 else 256 * Pow256(n - 1)
  }

  function Reverse(s: seq<byte>): (r: seq<byte>)
    ensures |r| == |s|
    ensures forall i :: 0 <= i < |s| ==> r[i] == s[|s| - 1 - i]
  {
    if s == [] then [] else Reverse(s[1..]) + [s[0]]
  }

  /** The unsigned value of `bs` read least significant byte first. */
  function LittleValue(bs: seq<byte>): (r: nat)
    ensures r < Pow256(|bs|)
  {
    if bs == [] then 0
    else
      var rest := LittleValue(bs[1..]);
      assert rest <= Pow256(|bs| - 1) - 1;
      bs[0] + 256 * rest
  }

  /** The unsigned value of `bs` in the given byte order. */
  function UnsignedValue(bs: seq<byte>, order: ByteOrder): (r: nat)
    ensures r < Pow256(|bs|)
  {
    match order
    case LittleEndian => LittleValue(bs)
    case BigEndian => LittleValue(Reverse(bs))
  }

  /** Two's complement reading of an unsigned `n`-byte value. */
  function ToSigned(u: nat, n: nat): (r: int)
    requires 0 < n && u < Pow256(n)
    ensures -(Pow256(n) / 2) <= r < Pow256(n) / 2
    ensures r == u || r == u - Pow256(n)
    ensures r >= 0 <==> u < Pow256(n) / 2
  {
    assert Pow256(n) == 256 * Pow256(n - 1);
    if u < Pow256(n) / 2 then u else u - Pow256(n)
  }

  /** The `n` bytes of `v`, least significant first (the inverse of LittleValue). */
  function EncodeLittle(v: nat, n: nat): (r: seq<byte>)
    requires v < Pow256(n)
    ensures |r| == n
  {
    if n == 0 then []
    else
      assert v / 256 < Pow256(n - 1);
      [v % 256] + EncodeLittle(v / 256, n - 1)
  }

  /** The `n` bytes of `v` in the given byte order. */
  function Encode(v: nat, n: nat, order: ByteOrder): (r: seq<byte>)
    requires v < Pow256(n)
    ensures |r| == n
  {
    match order
    case LittleEndian => EncodeLittle(v, n)
    case BigEndian => Reverse(EncodeLittle(v, n))
  }

  lemma {:induction false} ReverseReverse(s: seq<byte>)
    ensures Reverse(Reverse(s)) == s
  {
    var r := Reverse(Reverse(s));
    assert |r| == |s|;
    forall i | 0 <= i < |s| ensures r[i] == s[i] {
    }
  }

  lemma {:induction false} LittleRoundTrip(v: nat, n: nat)
    requires v < Pow256(n)
    ensures LittleValue(EncodeLittle(v, n)) == v
  {
    if n > 0 {
      assert v / 256 < Pow256(n - 1);
      var e := EncodeLittle(v, n);
      assert e[1..] == EncodeLittle(v / 256, n - 1);
      LittleRoundTrip(v / 256, n - 1);
    }
  }

  /** Reading back what Encode wrote gives the value, in both byte orders. */
  lemma {:induction false} DecodeEncode(v: nat, n: nat, order: ByteOrder)
    requires v < Pow256(n)
    ensures UnsignedValue(Encode(v, n, order), order) == v
  {
    LittleRoundTrip(v, n);
    if order == BigEndian {
      ReverseReverse(EncodeLittle(v, n));
    }
  }

  /** Big-endian reading is little-endian reading of the reversed bytes. */
  lemma {:induction false} BigIsReversedLittle(bs: seq<byte>)
    ensures UnsignedValue(bs, BigEndian) == UnsignedValue(Reverse(bs), LittleEndian)
  {
  }

  function Pow2(n: nat): (r: nat)
    ensures r >= 1
  {
    if n == 0 then 1 else 2 * Pow2(n - 1)
  }

  /** Bit `k` of `x`. */
  predicate HasBit(x: nat, k: nat) {
    if k == 0 then x % 2 == 1 else HasBit(x / 2, k - 1)
  }

  /** Bitwise `or` of two non-negative bit patterns. */
  function BitOr(x: nat, y: nat): (r: nat)
    decreases x + y
  {
    if x == 0 then y
    else if y == 0 then x
    else 2 * BitOr(x / 2, y / 2) + (if x % 2 == 1 || y % 2 == 1 then 1 else 0)
  }

  /** Bitwise `and` of two non-negative bit patterns. */
  function BitAnd(x: nat, y: nat): (r: nat)
    decreases x + y
  {
    if x == 0 || y == 0 then 0
    else 2 * BitAnd(x / 2, y / 2) + (if x % 2 == 1 && y % 2 == 1 then 1 else 0)
  }

  lemma {:induction false} BitOrBound(x: nat, y: nat, n: nat)
    requires x < Pow2(n) && y < Pow2(n)
    ensures BitOr(x, y) < Pow2(n)
    decreases n
  {
    if x != 0 && y != 0 {
      BitOrBound(x / 2, y / 2, n - 1);
    }
  }

  /** `or` with a value shifted past the top bit of `x` is addition. */
  lemma {:induction false} BitOrDisjoint(x: nat, y: nat, k: nat)
    requires x < Pow2(k)
    ensures BitOr(x, y * Pow2(k)) == x + y * Pow2(k)
    decreases k
  {
    if k > 0 && x != 0 && y != 0 {
      var p := Pow2(k - 1);
      assert y * Pow2(k) == 2 * (y * p);
      BitOrDisjoint(x / 2, y, k - 1);
    }
  }

  lemma {:induction false} ZeroHasNoBits(k: nat)
    ensures !HasBit(0, k)
  {
    if k > 0 {
      ZeroHasNoBits(k - 1);
    }
  }

  /** `x and (1 shl k)` is non-zero exactly when bit `k` of `x` is set. */
  lemma {:induction false} BitAndSingle(x: nat, k: nat)
    ensures BitAnd(x, Pow2(k)) != 0 <==> HasBit(x, k)
    decreases k
  {
    if x == 0 {
      ZeroHasNoBits(k);
    } else if k == 0 {
      assert BitAnd(x, 1) == 2 * BitAnd(x / 2, 0) + (if x % 2 == 1 then 1 else 0);
    } else {
      assert BitAnd(x, Pow2(k)) == 2 * BitAnd(x / 2, Pow2(k - 1));
      BitAndSingle(x / 2, k - 1);
    }
  }

  /** `x and (3 shl k)` is non-zero exactly when bit `k` or bit `k + 1` is set. */
  lemma {:induction false} BitAndPair(x: nat, k: nat)
    ensures BitAnd(x, 3 * Pow2(k)) != 0 <==> HasBit(x, k) || HasBit(x, k + 1)
    decreases k
  {
    if x == 0 {
      ZeroHasNoBits(k);
      ZeroHasNoBits(k + 1);
    } else if k == 0 {
      assert BitAnd(x, 3) == 2 * BitAnd(x / 2, 1) + x % 2;
      BitAndSingle(x / 2, 0);
    } else {
      assert BitAnd(x, 3 * Pow2(k)) == 2 * BitAnd(x / 2, 3 * Pow2(k - 1));
      BitAndPair(x / 2, k - 1);
    }
  }

  /** Kotlin `Int` is a 32-bit pattern; its value is the two's complement reading. */
  function Int32(x: nat): (r: int)
    requires x < 0x1_0000_0000
    ensures -0x8000_0000 <= r < 0x8000_0000
    ensures r == x || r == x - 0x1_0000_0000
  {
    if x < 0x8000_0000 then x else x - 0x1_0000_0000
  }

  /** One step of Kotlin's `foldIndexed(0) { i, acc, b -> acc or ((b.toInt() and 0xFF) shl (8 * i)) }`:
      `shl` on an `Int` uses the distance modulo 32, and bits shifted past bit 31 are lost
      (a byte shifted by at most 24 keeps all of its bits). */
  function OrShl(acc: nat, b: byte, index: nat): (r: nat)
    requires acc < 0x1_0000_0000
    ensures r < 0x1_0000_0000
  {
    var shift := (8 * index) % 32;
    ShiftedByteBound(b, shift);
    BitOrBound(acc, b * Pow2(shift), 32);
    BitOr(acc, b * Pow2(shift))
  }

  lemma Pow2Of32()
    ensures Pow2(8) == 0x100 && Pow2(16) == 0x1_0000 && Pow2(32) == 0x1_0000_0000
  {
    assert Pow2(8) == 0x100;
    PowAdd(8, 8);
    PowAdd(16, 16);
  }

  lemma Distribute(a: int, x: int, y: int, z: int)
    ensures a * (x + y * z) == a * x + y * (a * z)
  {
    calc {
      a * (x + y * z);
    ==
      a * x + a * (y * z);
    ==  { assert a * (y * z) == y * (a * z); }
      a * x + y * (a * z);
    }
  }

  lemma MulMono(a: nat, b: nat, c: nat)
    requires a <= b
    ensures a * c <= b * c
  {
  }

  lemma ShiftedByteBound(b: byte, shift: nat)
    requires shift <= 24
    ensures b * Pow2(shift) < Pow2(32) == 0x1_0000_0000
  {
    Pow2Of32();
    PowAdd(8, shift);
    PowAdd(8 + shift, 24 - shift);
    assert 8 + shift + (24 - shift) == 32;
    var p := Pow2(shift);
    var big := Pow2(8 + shift);
    var rest := Pow2(24 - shift);
    MulMono(1, rest, big);
    MulMono(b, 255, p);
    assert b * p < big <= Pow2(32);
  }

  lemma {:induction false} PowAdd(a: nat, b: nat)
    ensures Pow2(a + b) == Pow2(a) * Pow2(b)
    decreases a
  {
    if a > 0 {
      PowAdd(a - 1, b);
    }
  }

  /** The fold's 32-bit pattern, over `bs` from index 0 on. */
  function FoldOrShl(bs: seq<byte>): (r: nat)
    ensures r < 0x1_0000_0000
    decreases |bs|
  {
    if bs == [] then 0
    else OrShl(FoldOrShl(bs[..|bs| - 1]), bs[|bs| - 1], |bs| - 1)
  }

  /** Up to four bytes the shifted bytes do not overlap, so the fold is the
      unsigned little-endian value. */
  lemma {:induction false} FoldIsLittleValue(bs: seq<byte>)
    requires |bs| <= 4
    ensures FoldOrShl(bs) == LittleValue(bs)
    decreases |bs|
  {
    if bs != [] {
      var n := |bs| - 1;
      var init := bs[..n];
      FoldIsLittleValue(init);
      LittleValueSnoc(init, bs[n]);
      assert init + [bs[n]] == bs;
      assert (8 * n) % 32 == 8 * n;
      PowEight(n);
      BitOrDisjoint(LittleValue(init), bs[n], 8 * n);
    }
  }

  lemma {:induction false} PowEight(n: nat)
    ensures Pow2(8 * n) == Pow256(n)
  {
    if n > 0 {
      PowEight(n - 1);
      PowAdd(8, 8 * (n - 1));
      assert Pow2(8) == 256;
    }
  }

  /** Appending a byte adds it at the next significance. */
  lemma {:induction false} LittleValueSnoc(bs: seq<byte>, b: byte)
    ensures LittleValue(bs + [b]) == LittleValue(bs) + b * Pow256(|bs|)
    decreases |bs|
  {
    if bs != [] {
      var c := bs + [b];
      assert c[1..] == bs[1..] + [b] && c[0] == bs[0];
      LittleValueSnoc(bs[1..], b);
      var p := Pow256(|bs| - 1);
      var rest := LittleValue(bs[1..]);
      var restB := LittleValue(c[1..]);
      assert restB == rest + b * p;
      assert LittleValue(c) == c[0] + 256 * restB;
      Distribute(256, rest, b, p);
    }
  }

  /** Kotlin `(lo.toInt() and 0xFF) or ((hi.toInt() and 0xFF) shl 8)`: the bytes
      do not overlap, so the `or` is the little-endian word. */
  function WordOr(lo: byte, hi: byte): (r: nat)
    ensures r == LE16(lo, hi)
  {
    Pow2Of32();
    BitOrDisjoint(lo, hi, 8);
    BitOr(lo, hi * Pow2(8))
  }

  /** Kotlin `Int` division, which truncates toward zero. */
  function TruncDiv(a: int, b: int): (r: int)
    requires b > 0
    ensures a >= 0 ==> 0 <= a - r * b < b
    ensures a < 0 ==> -b < a - r * b <= 0
  {
    if a >= 0 then a / b else -((-a) / b)
  }

  lemma Pow256Of4()
    ensures Pow256(4) == 0x1_0000_0000
  {
  }

  /** A Kotlin `Int` is the two's complement reading of its own bit pattern. */
  lemma Int32OfResidue(v: int)
    requires -0x8000_0000 <= v < 0x8000_0000
    ensures Int32(v % 0x1_0000_0000) == v
  {
  }

  /** Masking a two's complement reading back to its width (`and 0xFFFF`,
      `and 0xFFFFFFFF`) recovers the unsigned value. */
  lemma SignedResidue(u: nat, n: nat)
    requires 0 < n && u < Pow256(n)
    ensures ToSigned(u, n) % Pow256(n) == u
  {
    var p := Pow256(n);
    var s := ToSigned(u, n);
    if s >= 0 {
      ModOfSmall(s, p);
    } else {
      ModOfNegative(s, p);
    }
  }

  /** The bit pattern of a value in the signed range reads back as that value. */
  lemma ResidueSigned(v: int, n: nat)
    requires 0 < n && -(Pow256(n) / 2) <= v < Pow256(n) / 2
    ensures 0 <= v % Pow256(n) < Pow256(n) && ToSigned(v % Pow256(n), n) == v
  {
    var p := Pow256(n);
    assert p == 256 * Pow256(n - 1);
    if v >= 0 {
      ModOfSmall(v, p);
    } else {
      ModOfNegative(v, p);
    }
  }

  lemma ModOfSmall(v: int, p: int)
    requires 0 <= v < p
    ensures v % p == v
  {
  }

  lemma ModOfNegative(v: int, p: int)
    requires 0 < p && -p <= v < 0
    ensures v % p == v + p
  {
  }
}
