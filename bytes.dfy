/** Fixed-width unsigned integers of the C++ sources and the common
    Option type. The widths are bit-vectors, so shifts, masks and
    wrap-around behave as the `uint8_t`/`uint16_t`/`uint32_t` code does. */
module Bytes {

  type byte = bv8
  type u16 = bv16
  type u32 = bv32

  datatype Option<T> = None | Some(value: T)

  /** True iff every byte of `s` equals `v`. */
  predicate AllEqual(s: seq<byte>, v: byte)
  {
    forall i :: 0 <= i < |s| ==> s[i] == v
  }

  /** The byte with only bit `k` set. */
  function Mask(k: nat): (r: byte)
    requires k < 8
  {
    (1 as byte) << k
  }

  /** Bit `k` of `b`. */
  predicate HasBit(b: byte, k: nat)
    requires k < 8
  {
    b & Mask(k) != 0
  }

  /** Byte `b` with bit `k` set (`v`) or cleared. */
  function SetMask(b: byte, k: nat, v: bool): (r: byte)
    requires k < 8
  {
    if v then b | Mask(k) else b & !Mask(k)
  }

  /** Setting or clearing bit `k` changes bit `k` to `v` and no other bit. */
  lemma SetMaskLaw(b: byte, k: nat, v: bool, j: nat)
    requires k < 8 && j < 8
    ensures HasBit(SetMask(b, k, v), j) == if j == k then v else HasBit(b, j)
  {
    MaskDisjoint(k, j);
  }

  /** A mask is not zero, and two different masks share no bit. */
  lemma MaskDisjoint(k: nat, j: nat)
    requires k < 8 && j < 8
    ensures Mask(k) != 0
    ensures j != k ==> Mask(k) & Mask(j) == 0
  {
    MaskValue(k);
    MaskValue(j);
  }

  /** The eight masks. */
  lemma MaskValue(k: nat)
    requires k < 8
    ensures Mask(k) == if k == 0 then 0x01 else if k == 1 then 0x02 else if k == 2 then 0x04
                       else if k == 3 then 0x08 else if k == 4 then 0x10 else if k == 5 then 0x20
                       else if k == 6 then 0x40 else 0x80
  {
    if k == 0 {
    } else if k == 1 {
    } else if k == 2 {
    } else if k == 3 {
    } else if k == 4 {
    } else if k == 5 {
    } else if k == 6 {
    } else {
      assert k == 7;
    }
  }

  /** Two bytes with the same eight bits are equal. */
  lemma SameBits(a: byte, b: byte)
    requires (a & 0x01 != 0) == (b & 0x01 != 0) && (a & 0x02 != 0) == (b & 0x02 != 0)
    requires (a & 0x04 != 0) == (b & 0x04 != 0) && (a & 0x08 != 0) == (b & 0x08 != 0)
    requires (a & 0x10 != 0) == (b & 0x10 != 0) && (a & 0x20 != 0) == (b & 0x20 != 0)
    requires (a & 0x40 != 0) == (b & 0x40 != 0) && (a & 0x80 != 0) == (b & 0x80 != 0)
    ensures a == b
  {
  }

  /** The zero byte has no bit set. */
  lemma ZeroHasNoBit(j: nat)
    requires j < 8
    ensures !HasBit(0, j)
  {
  }

  /** Two to the power `n`. */
  function Pow2(n: nat): (r: nat)
    ensures r > 0
  {
    if n == 0 then 1 else 2 * Pow2(n - 1)
  }

  /** The powers of two the sources use as widths and sizes. */
  lemma Pow2Values()
    ensures Pow2(0) == 1
    ensures Pow2(1) == 2
    ensures Pow2(2) == 4
    ensures Pow2(3) == 8
    ensures Pow2(4) == 16
    ensures Pow2(5) == 32
    ensures Pow2(6) == 64
    ensures Pow2(7) == 128
    ensures Pow2(8) == 256
    ensures Pow2(23) == 0x80_0000
    ensures Pow2(24) == 0x100_0000
    ensures Pow2(32) == 0x1_0000_0000
  {
    assert Pow2(1) == 2;
    assert Pow2(2) == 4;
    assert Pow2(3) == 8;
    assert Pow2(4) == 16;
    assert Pow2(5) == 32;
    assert Pow2(6) == 64;
    assert Pow2(7) == 128;
    assert Pow2(8) == 256;
    assert Pow2(9) == 512;
    assert Pow2(10) == 1024;
    assert Pow2(11) == 2048;
    assert Pow2(12) == 4096;
    assert Pow2(13) == 8192;
    assert Pow2(14) == 16384;
    assert Pow2(15) == 32768;
    assert Pow2(16) == 65536;
    assert Pow2(17) == 131072;
    assert Pow2(18) == 262144;
    assert Pow2(19) == 524288;
    assert Pow2(20) == 1048576;
    assert Pow2(21) == 2097152;
    assert Pow2(22) == 4194304;
    assert Pow2(23) == 8388608;
    assert Pow2(24) == 16777216;
    assert Pow2(25) == 33554432;
    assert Pow2(26) == 67108864;
    assert Pow2(27) == 134217728;
    assert Pow2(28) == 268435456;
    assert Pow2(29) == 536870912;
    assert Pow2(30) == 1073741824;
    assert Pow2(31) == 2147483648;
    assert Pow2(32) == 4294967296;
  }

  /** Quotient and remainder are the only such pair. */
  lemma ModUnique(a: nat, d: nat, q: nat, r: nat)
    requires d > 0 && a == q * d + r && r < d
    ensures a % d == r
  {
    var q0 := a / d;
    if q > q0 {
      MulStep(q, q0, d);
    } else if q < q0 {
      MulStep(q0, q, d);
    }
  }

  lemma MulStep(x: nat, y: nat, d: nat)
    requires x > y
    ensures x * d >= y * d + d
  {
    assert (x - y - 1) * d >= 0;
    assert (x - y - 1) * d == x * d - y * d - d;
  }
}
