/** What every parallel chip emulator of the chip libraries shares: the
    memory area (a vector of 16-bit cells whose size the programmer sets),
    how an address is fitted into it, and how resizing treats the cells.
    The address bus and the sizes are 32-bit `unsigned long` values; the
    address is fitted with a bitwise AND against `size - 1`, written here
    as arithmetic on the low 32 bits. */
module BaseChip {
  import opened Bytes

  const Limit32: nat := 0x1_0000_0000

  /** A 32-bit `unsigned long`. */
  type Word32 = n: int | 0 <= n < 0x1_0000_0000

  /** The bitwise AND of the low `n` bits of `a` and `b`. */
  function AndBits(a: nat, b: nat, n: nat): (r: nat)
    ensures r < Pow2(n)
  {
    if n == 0 then 0
    else 2 * AndBits(a / 2, b / 2, n - 1) + (if a % 2 == 1 && b % 2 == 1 then 1 else 0)
  }

  /** The AND never exceeds either mask that fits the width. */
  lemma {:induction false} AndBelow(a: nat, b: nat, n: nat)
    requires b < Pow2(n)
    ensures AndBits(a, b, n) <= b
  {
    if n > 0 {
      AndBelow(a / 2, b / 2, n - 1);
    }
  }

  /** Splitting off the lowest bit of a remainder by a power of two. */
  lemma ModHalf(a: nat, p: nat)
    requires p > 0
    ensures a % (2 * p) == 2 * ((a / 2) % p) + a % 2
  {
    var q := (a / 2) / p;
    var r := 2 * ((a / 2) % p) + a % 2;
    assert a / 2 == q * p + (a / 2) % p;
    assert a == q * (2 * p) + r;
    ModUnique(a, 2 * p, q, r);
  }

  /** ANDing with the mask of the low `k` bits keeps `a` modulo `2^k`. */
  lemma {:induction false} AndLowMask(a: nat, k: nat, n: nat)
    requires k <= n
    ensures AndBits(a, Pow2(k) - 1, n) == a % Pow2(k)
  {
    if k == 0 {
      AndZero(a, n);
    } else {
      assert (Pow2(k) - 1) / 2 == Pow2(k - 1) - 1 && (Pow2(k) - 1) % 2 == 1;
      AndLowMask(a / 2, k - 1, n - 1);
      ModHalf(a, Pow2(k - 1));
    }
  }

  lemma {:induction false} AndZero(a: nat, n: nat)
    ensures AndBits(a, 0, n) == 0
  {
    if n > 0 {
      AndZero(a / 2, n - 1);
    }
  }

  /** `SetAddrBus`: the address ANDed with `size - 1` in 32-bit arithmetic.
      For a non-empty memory the result is always a cell of it; for an
      empty one `size - 1` wraps to all ones and the address is kept. */
  function AddrMask(addr: Word32, size: Word32): (r: Word32)
    ensures size > 0 ==> r < size
    ensures size == 0 ==> r == addr
  {
    assert Pow2(32) == Limit32 by { Pow2Values(); }
    var mask := (size - 1) % Limit32;
    AndBelow(addr, mask, 32);
    AndLowMask(addr, 32, 32);
    AndBits(addr, mask, 32)
  }

  /** For a memory of `2^k` cells the mask wraps the address around it. */
  lemma AddrMaskWraps(addr: Word32, k: nat)
    requires Pow2(k) < Limit32
    ensures AddrMask(addr, Pow2(k)) == addr % Pow2(k)
  {
    if k > 32 {
      Pow2Values();
      Pow2Grows(32, k);
      assert false;
    }
    ModUnique(Pow2(k) - 1, Limit32, 0, Pow2(k) - 1);
    AndLowMask(addr, k, 32);
  }

  lemma {:induction false} Pow2Grows(m: nat, n: nat)
    requires m <= n
    ensures Pow2(m) <= Pow2(n)
  {
    if m < n {
      Pow2Grows(m, n - 1);
    }
  }

  /** `std::vector::resize`: the first cells kept, new cells 0. */
  function Resized(memory: seq<u16>, size: nat): (r: seq<u16>)
    ensures |r| == size
    ensures forall k :: 0 <= k < size && k < |memory| ==> r[k] == memory[k]
    ensures forall k :: |memory| <= k < size ==> r[k] == 0
  {
    if size <= |memory| then memory[..size] else memory + seq(size - |memory|, k => 0)
  }

  /** A memory of `size` cells, each `data`. */
  function Filled(size: nat, data: u16): (r: seq<u16>)
    ensures |r| == size && forall k :: 0 <= k < size ==> r[k] == data
  {
    seq(size, k => data)
  }

  /** `Read`: the data bus shows the addressed cell, or all ones for an
      address beyond the memory area. */
  function CellAt(memory: seq<u16>, addr: Word32): (r: u16)
    ensures addr < |memory| ==> r == memory[addr]
    ensures addr >= |memory| ==> r == 0xFFFF
  {
    if addr < |memory| then memory[addr] else 0xFFFF
  }

  /** `Write`: the data bus value is stored in the addressed cell; an
      address beyond the memory area changes nothing. */
  function Stored(memory: seq<u16>, addr: Word32, data: u16): (r: seq<u16>)
    ensures |r| == |memory|
    ensures addr < |memory| ==> r[addr] == data
    ensures forall k :: 0 <= k < |memory| && k != addr ==> r[k] == memory[k]
  {
    if addr < |memory| then memory[addr := data] else memory
  }

  /** Reading back what was stored gives the stored value. */
  lemma StoredThenRead(memory: seq<u16>, addr: Word32, data: u16)
    requires addr < |memory|
    ensures CellAt(Stored(memory, addr, data), addr) == data
  {
  }
}
