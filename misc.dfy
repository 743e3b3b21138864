/** The shared helpers of the eprom090d Willem programmer software: the
    address-pin swap for 28/32-pin chips, the computation of the address
    width from the buffer size, and the save/restore of the global chip
    settings `Epr` into `Epr1` around an operation that needs plain
    settings. `unsigned int` and `unsigned long` are 32 bits wide there. */
module Misc {
  import opened Bytes

  /** A 32-bit `unsigned int` / `unsigned long`. */
  type UInt = n: int | 0 <= n < 0x1_0000_0000

  /** `swap_adr`: bit 14 is copied to bit 15 and bit 15 moved to bit 18;
      bits 0-14, 16, 17 and 19 are kept and every other bit is cleared. */
  function SwapAdr(adr: u32): (r: u32)
    ensures r & 0xB_7FFF == adr & 0xB_7FFF
    ensures (r & 0x8000 != 0) <==> (adr & 0x4000 != 0)
    ensures (r & 0x4_0000 != 0) <==> (adr & 0x8000 != 0)
    ensures r & 0xFFF0_0000 == 0
  {
    var j := (adr << 1) & 0x8000;
    var i := (adr << 3) & 0x4_0000;
    (adr & 0xB_7FFF) | j | i
  }

  /** An address is left alone exactly when it has no bit above 19 and
      bits 14, 15 and 18 (mask 0x4_C000) are all clear or all set. */
  lemma SwapAdrFixed(adr: u32)
    ensures SwapAdr(adr) == adr <==>
      adr & 0xFFF4_C000 == 0 || adr & 0xFFF4_C000 == 0x4_C000
  {
    var r := SwapAdr(adr);
    assert r == (adr & 0xB_7FFF) | ((adr << 1) & 0x8000) | ((adr << 3) & 0x4_0000);
    FixedBits(adr, r);
  }

  lemma FixedBits(adr: u32, r: u32)
    requires r == (adr & 0xB_7FFF) | ((adr << 1) & 0x8000) | ((adr << 3) & 0x4_0000)
    ensures r == adr <==> adr & 0xFFF4_C000 == 0 || adr & 0xFFF4_C000 == 0x4_C000
  {
  }

  /** Only old bit 18 and the bits above 19 are lost: on addresses of 20
      bits with bit 18 clear the swap is one-to-one. */
  lemma SwapAdrInjective(a: u32, b: u32)
    requires a & 0xFFF0_0000 == 0 && b & 0xFFF0_0000 == 0
    requires a & 0x4_0000 == 0 && b & 0x4_0000 == 0
    requires SwapAdr(a) == SwapAdr(b)
    ensures a == b
  {
  }

  /** The number of binary digits of `n`: how many halvings reach 0. */
  function BitLength(n: nat): (r: nat)
    ensures n == 0 ==> r == 0
    ensures n > 0 ==> r > 0 && Pow2(r - 1) <= n < Pow2(r)
  {
    if n == 0 then 0 else 1 + BitLength(n / 2)
  }

  /** `(unsigned long)1 << shift`: a 32-bit shift; a shift by 32 or more
      is undefined in C and has no value here. */
  function Pattern(shift: UInt): (r: Option<UInt>)
    ensures r.Some? <==> shift < 32
    ensures r.Some? ==> r.value == Pow2(shift)
  {
    if shift < 32 then Pow2Below32(shift); Some(Pow2(shift)) else None
  }

  lemma Pow2Below32(n: nat)
    requires n < 32
    ensures Pow2(n) < 0x1_0000_0000
  {
    Pow2Values();
    Pow2Strict(n, 32);
  }

  lemma {:induction false} Pow2Strict(m: nat, n: nat)
    requires m < n
    ensures Pow2(m) < Pow2(n)
  {
    if m < n - 1 {
      Pow2Strict(m, n - 1);
    }
  }

  /** The settings `saveEpr` keeps aside, and the fields `calcu_adr`
      reads and writes, of the programmer's chip description. Flags are
      `ON` (1) or `OFF` (0). */
  datatype Eprom = Eprom(
    tWC: UInt, tWP: UInt, shiftAdr: UInt, epr64: UInt, eep: UInt,
    oeVpp: UInt, swap: UInt, pin28: UInt, pin30: UInt, serial: UInt,
    pic: UInt, disCalcu: UInt, vpp: UInt,
    bufferSize: UInt, patternAdr: Option<UInt>)

  /** `Epr1` after `saveEpr`: the thirteen settings of `epr` copied in. */
  function Saved(into: Eprom, epr: Eprom): Eprom
  {
    into.(tWC := epr.tWC, tWP := epr.tWP, shiftAdr := epr.shiftAdr,
          epr64 := epr.epr64, eep := epr.eep, oeVpp := epr.oeVpp,
          swap := epr.swap, pin28 := epr.pin28, pin30 := epr.pin30,
          serial := epr.serial, pic := epr.pic, disCalcu := epr.disCalcu,
          vpp := epr.vpp)
  }

  /** `Epr` after `saveEpr`: plain settings — every option off, 10 and 1
      for the cycle and pulse times, a 13-bit address (shift 12). The
      EEPROM flag is not touched. */
  function Plain(epr: Eprom): Eprom
  {
    epr.(epr64 := 0, oeVpp := 0, swap := 0, tWC := 10, tWP := 1,
         shiftAdr := 12, pin28 := 0, pin30 := 0, serial := 0, pic := 0,
         disCalcu := 0, vpp := 0)
  }

  /** `Epr` after `restoreEpr`: the thirteen settings copied back. */
  function Restored(epr: Eprom, from: Eprom): Eprom
  {
    Saved(epr, from)
  }

  /** Restoring what was saved gives back the original settings, whatever
      was done to the settings in between, and the whole description
      exactly when the fields that are not saved were left alone. */
  lemma RestoreAfterSave(epr: Eprom, epr1: Eprom, between: Eprom)
    ensures Restored(between, Saved(epr1, epr)) == epr <==>
      between.bufferSize == epr.bufferSize && between.patternAdr == epr.patternAdr
  {
  }

  /** In particular a restore right after a save undoes it. */
  lemma SaveThenRestore(epr: Eprom, epr1: Eprom)
    ensures Restored(Plain(epr), Saved(epr1, epr)) == epr
  {
    RestoreAfterSave(epr, epr1, Plain(epr));
  }

  /** A second save without a restore in between loses the original
      settings: `Epr1` then holds the plain ones. */
  lemma SaveTwiceLoses(epr: Eprom, epr1: Eprom)
    ensures Saved(Saved(epr1, epr), Plain(epr)) == Saved(epr1, Plain(epr))
    ensures Plain(Plain(epr)) == Plain(epr)
  {
  }

  /** `shift_adr` as `calcu_adr` computes it: the bit length of the buffer
      size less two, in `unsigned int` arithmetic. */
  function ShiftOf(bufferSize: UInt): (r: UInt)
  {
    (BitLength(bufferSize) - 2) % 0x1_0000_0000
  }

  /** For a buffer of two or more cells, the pattern is the highest power
      of two with twice its value within the size, so `shift_adr + 1`
      address bits are shifted out; for a buffer of `2^k` cells those are
      exactly the bits of the addresses 0 .. 2^k - 1. */
  lemma PatternTopBit(bufferSize: UInt)
    requires bufferSize >= 2
    ensures ShiftOf(bufferSize) == BitLength(bufferSize) - 2
    ensures Pattern(ShiftOf(bufferSize)).Some?
    ensures 2 * Pattern(ShiftOf(bufferSize)).value <= bufferSize < 4 * Pattern(ShiftOf(bufferSize)).value
  {
    var n := BitLength(bufferSize);
    Pow2Values();
    if n > 32 {
      Pow2Strict(32, n - 1);
      assert false;
    }
    if n < 2 {
      assert false;
    }
    ModUnique(n - 2, 0x1_0000_0000, 0, n - 2);
  }

  lemma {:induction false} BitLengthPow2(k: nat)
    ensures BitLength(Pow2(k)) == k + 1
  {
    if k > 0 {
      BitLengthPow2(k - 1);
      assert Pow2(k) / 2 == Pow2(k - 1);
    }
  }

  /** A buffer of `2^k` cells (k >= 1) gets the pattern `2^(k-1)`, and
      every address of it fits in `shift_adr + 1` bits. */
  lemma PatternOfPow2(k: nat, addr: nat)
    requires 1 <= k && Pow2(k) < 0x1_0000_0000 && addr < Pow2(k)
    ensures ShiftOf(Pow2(k)) == k - 1
    ensures Pattern(k - 1) == Some(Pow2(k - 1))
    ensures addr < 2 * Pattern(ShiftOf(Pow2(k))).value
  {
    BitLengthPow2(k);
    PatternTopBit(Pow2(k));
  }

  /** A buffer of fewer than two cells makes the `unsigned int` subtraction
      wrap, and the shift that follows is undefined. */
  lemma SmallBufferWraps(bufferSize: UInt)
    requires bufferSize < 2
    ensures ShiftOf(bufferSize) >= 0xFFFF_FFFE
    ensures Pattern(ShiftOf(bufferSize)).None?
  {
    assert BitLength(bufferSize) == bufferSize;
  }

  /** The global chip description `Epr` and the copy `Epr1` kept aside. */
  class Globals {
    var epr: Eprom
    var epr1: Eprom

    constructor (epr: Eprom, epr1: Eprom)
      ensures this.epr == epr && this.epr1 == epr1
    {
      this.epr := epr;
      this.epr1 := epr1;
    }

    /** `calcu_adr`: unless address calculation is disabled, `shift_adr`
        becomes the bit length of the buffer size less two (counted by
        halving); then `pattern_adr` is one shifted by `shift_adr`. */
    method CalcuAdr()
      modifies this`epr
      ensures old(epr.disCalcu) == 0 ==> epr.shiftAdr == ShiftOf(old(epr.bufferSize))
      ensures old(epr.disCalcu) != 0 ==> epr.shiftAdr == old(epr.shiftAdr)
      ensures epr.patternAdr == Pattern(epr.shiftAdr)
      ensures epr == old(epr).(shiftAdr := epr.shiftAdr, patternAdr := epr.patternAdr)
    {
      var i: nat := 0;
      if epr.disCalcu == 0 {
        var adr: nat := epr.bufferSize;
        while adr > 0
          invariant i + BitLength(adr) == BitLength(epr.bufferSize)
          decreases adr
        {
          adr := adr / 2;
          i := i + 1;
        }
        epr := epr.(shiftAdr := (i - 2) % 0x1_0000_0000);
      }
      epr := epr.(patternAdr := Pattern(epr.shiftAdr));
    }

    /** `saveEpr`: the settings are copied into `Epr1` and `Epr` takes the
        plain ones. */
    method SaveEpr()
      modifies this
      ensures epr1 == Saved(old(epr1), old(epr))
      ensures epr == Plain(old(epr))
    {
      epr1 := epr1.(tWC := epr.tWC, tWP := epr.tWP, shiftAdr := epr.shiftAdr,
                    epr64 := epr.epr64, eep := epr.eep, oeVpp := epr.oeVpp,
                    swap := epr.swap, pin28 := epr.pin28, pin30 := epr.pin30,
                    serial := epr.serial, pic := epr.pic, disCalcu := epr.disCalcu,
                    vpp := epr.vpp);
      epr := epr.(epr64 := 0, oeVpp := 0, swap := 0, tWC := 10, tWP := 1,
                  shiftAdr := 12, pin28 := 0, pin30 := 0, serial := 0, pic := 0,
                  disCalcu := 0, vpp := 0);
    }

    /** `restoreEpr`: the settings are copied back from `Epr1`. */
    method RestoreEpr()
      modifies this`epr
      ensures epr == Restored(old(epr), epr1)
    {
      epr := epr.(tWC := epr1.tWC, tWP := epr1.tWP, shiftAdr := epr1.shiftAdr,
                  epr64 := epr1.epr64, eep := epr1.eep, oeVpp := epr1.oeVpp,
                  swap := epr1.swap, pin28 := epr1.pin28, pin30 := epr1.pin30,
                  serial := epr1.serial, pic := epr1.pic, disCalcu := epr1.disCalcu,
                  vpp := epr1.vpp);
    }
  }
}
