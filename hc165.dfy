/** The 74HC165 parallel-in/serial-out shift register driver. The levels
    the driver samples on Q7 (or on the inverted output /Q7) are an input
    stream, one level per clock pulse; clock and load pulses are left to
    the hardware. */
module HC165 {
  import opened Bytes

  const NoPin: nat := 0xFF
  const DefaultPulseTime: nat := 1

  /** Index in the sampled bit stream of bit `b` of byte `k`. Reading
      forward, byte 0 bit 0 is the last captured bit; reading in reverse it
      is the first. */
  function BitIndex(size: nat, k: nat, b: nat, reverse: bool): (r: nat)
    requires k < size && b < 8
    ensures r < 8 * size
  {
    if reverse then 8 * k + b else 8 * size - 1 - (8 * k + b)
  }

  /** Little-endian compositions used by `readWord`/`readDWord`. */
  function WordOf(b0: byte, b1: byte): u16
  {
    (b1 as u16 << 8) | b0 as u16
  }

  function DWordOf(b0: byte, b1: byte, b2: byte, b3: byte): u32
  {
    (b3 as u32 << 24) | (b2 as u32 << 16) | (b1 as u32 << 8) | b0 as u32
  }

  /** The byte whose bits 0..n-1 are the stream bits of byte `k`, the
      rest clear. */
  function PackBits(bits: seq<bool>, size: nat, k: nat, reverse: bool, n: nat): (r: byte)
    requires k < size && n <= 8 && |bits| == 8 * size
  {
    if n == 0 then 0
    else if bits[BitIndex(size, k, n - 1, reverse)] then SetMask(PackBits(bits, size, k, reverse, n - 1), n - 1, true)
    else PackBits(bits, size, k, reverse, n - 1)
  }

  /** The `size` bytes packed from a stream of `8 * size` bits. */
  function Unpacked(bits: seq<bool>, size: nat, reverse: bool): (r: seq<byte>)
    requires |bits| == 8 * size
  {
    seq(size, k requires 0 <= k < size => PackBits(bits, size, k, reverse, 8))
  }

  class HC165 {
    var plPin: nat
    var clkPin: nat
    var cePin: nat
    var q7Pin: nat
    var nq7Pin: nat
    var pulseTime: nat
    var ce: bool

    constructor ()
      ensures plPin == NoPin && clkPin == NoPin && cePin == NoPin
      ensures q7Pin == NoPin && nq7Pin == NoPin && pulseTime == DefaultPulseTime
      ensures !ce
    {
      plPin, clkPin, cePin, q7Pin, nq7Pin := NoPin, NoPin, NoPin, NoPin, NoPin;
      pulseTime := DefaultPulseTime;
      ce := false;
    }

    method Configure(pl: nat, clk: nat, ceP: nat, q7: nat, nq7: nat, pulse: nat)
      modifies this
      ensures plPin == pl && clkPin == clk && cePin == ceP
      ensures q7Pin == q7 && nq7Pin == nq7 && pulseTime == pulse
      ensures ce == old(ce)
    {
      plPin, clkPin, cePin, q7Pin, nq7Pin, pulseTime := pl, clk, ceP, q7, nq7, pulse;
    }

    method ChipEnable(value: bool)
      modifies this`ce
      ensures ce == value
    {
      ce := value;
    }

    method ChipDisable()
      modifies this`ce
      ensures !ce
    {
      ce := false;
    }

    function GetCE(): bool
      reads this
    {
      ce
    }

    /** Whether there is a clock pin and at least one data output pin. */
    predicate CanRead()
      reads this
    {
      clkPin != NoPin && (q7Pin != NoPin || nq7Pin != NoPin)
    }

    /** The data bit for a sampled pin level: Q7 directly, or /Q7 inverted
        when Q7 is not connected. */
    function Sample(level: bool): bool
      reads this
    {
      if q7Pin != NoPin then level else !level
    }

    /** The data bits for a stream of sampled levels. */
    function Samples(levels: seq<bool>): (r: seq<bool>)
      reads this
      ensures |r| == |levels|
    {
      seq(|levels|, j requires 0 <= j < |levels| reads this => Sample(levels[j]))
    }

    /** The bit present after `index` clock pulses, given the level the
        data pin shows at that point. */
    function GetBit(index: nat, levels: seq<bool>): (r: bool)
      requires index < |levels|
      reads this
      ensures !CanRead() ==> !r
      ensures CanRead() ==> r == Sample(levels[index])
    {
      if !CanRead() then false else Sample(levels[index])
    }

    /** Clocks `8 * size` bits in and packs them into `size` bytes; `levels`
        are the pin levels sampled before each clock pulse. Returns the
        count stored, 0 when there is no buffer, nothing to read or no pins
        to read with. */
    method ReadData(present: bool, size: nat, reverse: bool, levels: seq<bool>)
      returns (n: nat, data: seq<byte>)
      requires |levels| == 8 * size
      ensures !present || size == 0 || !CanRead() ==> n == 0 && data == []
      ensures present && size > 0 && CanRead() ==>
                n == size && data == Unpacked(Samples(levels), size, reverse)
    {
      if !present || size == 0 {
        return 0, [];
      }
      if !CanRead() {
        return 0, [];
      }
      var bits: seq<bool> := [];
      var i := 0;
      while i < size * 8
        invariant 0 <= i <= size * 8
        invariant bits == Samples(levels)[..i]
      {
        bits := bits + [Sample(levels[i])];
        i := i + 1;
      }
      assert bits == Samples(levels);
      var start := if reverse then 0 else |bits| - 1;
      var end := if reverse then |bits| - 1 else 0;
      var nbit := start;
      data := [];
      var nbyte := 0;
      var done := false;
      ghost var want := Unpacked(bits, size, reverse);
      while nbyte < size && !done
        invariant 0 <= nbyte <= size && |data| == nbyte
        invariant !done && nbyte < size ==> nbit == BitIndex(size, nbyte, 0, reverse)
        invariant done ==> nbyte == size
        invariant data == want[..nbyte]
      {
        var x, next, stop := PackByte(bits, size, nbyte, nbit, end, reverse);
        assert x == want[nbyte];
        assert want[..nbyte + 1] == want[..nbyte] + [x];
        nbit := next;
        data := data + [x];
        nbyte := nbyte + 1;
        if stop {
          done := true;
        }
      }
      n := size;
    }

    method ReadByte(reverse: bool, levels: seq<bool>) returns (r: byte)
      requires |levels| == 8
      ensures !CanRead() ==> r == 0
      ensures CanRead() ==> r == Unpacked(Samples(levels), 1, reverse)[0]
    {
      var n, data := ReadData(true, 1, reverse, levels);
      if n != 1 {
        return 0;
      }
      r := data[0];
    }

    method ReadWord(reverse: bool, levels: seq<bool>) returns (r: u16)
      requires |levels| == 16
      ensures !CanRead() ==> r == 0
      ensures CanRead() ==> var d := Unpacked(Samples(levels), 2, reverse); r == WordOf(d[0], d[1])
    {
      var n, data := ReadData(true, 2, reverse, levels);
      if n != 2 {
        return 0;
      }
      r := data[1] as u16;
      r := r << 8;
      r := r | data[0] as u16;
    }

    method ReadDWord(reverse: bool, levels: seq<bool>) returns (r: u32)
      requires |levels| == 32
      ensures !CanRead() ==> r == 0
      ensures CanRead() ==> var d := Unpacked(Samples(levels), 4, reverse);
                r == DWordOf(d[0], d[1], d[2], d[3])
    {
      var n, data := ReadData(true, 4, reverse, levels);
      if n != 4 {
        return 0;
      }
      r := data[3] as u32;
      r := r << 8;
      r := r | data[2] as u32;
      r := r << 8;
      r := r | data[1] as u32;
      r := r << 8;
      r := r | data[0] as u32;
    }
  }

  /** The inner loop of `readData`: packs the bits of byte `nbyte`,
      walking the stream from `nbit` and stopping at its `end`. */
  method PackByte(bits: seq<bool>, size: nat, nbyte: nat, nbit: nat, end: int, reverse: bool)
    returns (x: byte, next: nat, stop: bool)
    requires nbyte < size && |bits| == 8 * size
    requires end == if reverse then 8 * size - 1 else 0
    requires nbit == BitIndex(size, nbyte, 0, reverse)
    ensures x == PackBits(bits, size, nbyte, reverse, 8)
    ensures stop ==> nbyte == size - 1
    ensures !stop ==> nbyte + 1 < size && next == BitIndex(size, nbyte + 1, 0, reverse)
  {
    x := 0;
    next := nbit;
    var b := 0;
    stop := false;
    while b < 8 && !stop
      invariant 0 <= b <= 8
      invariant b < 8 ==> !stop && next == BitIndex(size, nbyte, b, reverse)
      invariant stop ==> b == 8 && nbyte == size - 1
      invariant b == 8 && !stop ==> nbyte + 1 < size && next == BitIndex(size, nbyte + 1, 0, reverse)
      invariant x == PackBits(bits, size, nbyte, reverse, b)
    {
      if bits[next] {
        x := x | Mask(b);
      }
      assert x == PackBits(bits, size, nbyte, reverse, b + 1);
      if next == end {
        BitIndexEnd(size, nbyte, b, reverse);
        stop := true;
        b := 8;
      } else {
        BitIndexNext(size, nbyte, b, reverse, end);
        if reverse {
          next := next + 1;
        } else {
          next := next - 1;
        }
        b := b + 1;
      }
    }
  }

  /** Bit `b` of packed byte `k` is the stream bit `BitIndex(size, k, b)`:
      reading forward, byte 0 bit 0 is the last bit captured; in reverse,
      the first. */
  lemma {:induction false} PackBitsBits(bits: seq<bool>, size: nat, k: nat, reverse: bool, n: nat, b: nat)
    requires k < size && n <= 8 && b < 8 && |bits| == 8 * size
    ensures HasBit(PackBits(bits, size, k, reverse, n), b) == (b < n && bits[BitIndex(size, k, b, reverse)])
  {
    if n == 0 {
      ZeroHasNoBit(b);
    } else {
      PackBitsBits(bits, size, k, reverse, n - 1, b);
      if n - 1 != b {
        assert BitIndex(size, k, n - 1, reverse) != BitIndex(size, k, b, reverse);
      }
      SetMaskLaw(PackBits(bits, size, k, reverse, n - 1), n - 1, true, b);
    }
  }

  lemma UnpackedBits(bits: seq<bool>, size: nat, reverse: bool, k: nat, b: nat)
    requires |bits| == 8 * size && k < size && b < 8
    ensures HasBit(Unpacked(bits, size, reverse)[k], b) == bits[BitIndex(size, k, b, reverse)]
  {
    PackBitsBits(bits, size, k, reverse, 8, b);
  }

  /** The walk reaches its end on the last bit of the last byte only. */
  lemma BitIndexEnd(size: nat, k: nat, b: nat, reverse: bool)
    requires k < size && b < 8
    requires BitIndex(size, k, b, reverse) == if reverse then 8 * size - 1 else 0
    ensures k == size - 1 && b == 7
  {
  }

  lemma BitIndexNext(size: nat, k: nat, b: nat, reverse: bool, end: int)
    requires k < size && b < 8
    requires end == if reverse then 8 * size - 1 else 0
    requires BitIndex(size, k, b, reverse) != end
    ensures b < 7 ==> BitIndex(size, k, b + 1, reverse)
                      == if reverse then BitIndex(size, k, b, reverse) + 1
                         else BitIndex(size, k, b, reverse) - 1
    ensures b == 7 ==> (k + 1 < size && BitIndex(size, k + 1, 0, reverse)
                        == if reverse then BitIndex(size, k, b, reverse) + 1
                           else BitIndex(size, k, b, reverse) - 1)
  {
  }

  /** A byte is determined by its eight bits. */
  lemma ByteFromBits(x: byte, y: byte)
    requires forall b :: 0 <= b < 8 ==> HasBit(x, b) == HasBit(y, b)
    ensures x == y
  {
    assert (x & 0x01 != 0) == (y & 0x01 != 0) by {
      MaskValue(0);
      assert HasBit(x, 0) == HasBit(y, 0);
    }
    assert (x & 0x02 != 0) == (y & 0x02 != 0) by {
      MaskValue(1);
      assert HasBit(x, 1) == HasBit(y, 1);
    }
    assert (x & 0x04 != 0) == (y & 0x04 != 0) by {
      MaskValue(2);
      assert HasBit(x, 2) == HasBit(y, 2);
    }
    assert (x & 0x08 != 0) == (y & 0x08 != 0) by {
      MaskValue(3);
      assert HasBit(x, 3) == HasBit(y, 3);
    }
    assert (x & 0x10 != 0) == (y & 0x10 != 0) by {
      MaskValue(4);
      assert HasBit(x, 4) == HasBit(y, 4);
    }
    assert (x & 0x20 != 0) == (y & 0x20 != 0) by {
      MaskValue(5);
      assert HasBit(x, 5) == HasBit(y, 5);
    }
    assert (x & 0x40 != 0) == (y & 0x40 != 0) by {
      MaskValue(6);
      assert HasBit(x, 6) == HasBit(y, 6);
    }
    assert (x & 0x80 != 0) == (y & 0x80 != 0) by {
      MaskValue(7);
      assert HasBit(x, 7) == HasBit(y, 7);
    }
    SameBits(x, y);
  }

  /** With every sampled bit 1, every byte read is 0xFF, in both orders. */
  lemma AllOnesUnpacked(bits: seq<bool>, size: nat, reverse: bool, k: nat)
    requires |bits| == 8 * size && k < size
    requires forall j :: 0 <= j < |bits| ==> bits[j]
    ensures Unpacked(bits, size, reverse)[k] == 0xFF
  {
    var x := Unpacked(bits, size, reverse)[k];
    forall b | 0 <= b < 8
      ensures HasBit(x, b) == HasBit(0xFF, b)
    {
      UnpackedBits(bits, size, reverse, k, b);
      assert b == 0 || b == 1 || b == 2 || b == 3 || b == 4 || b == 5 || b == 6 || b == 7;
    }
    ByteFromBits(x, 0xFF);
  }

  lemma AllOnesWords()
    ensures WordOf(0xFF, 0xFF) == 0xFFFF
    ensures DWordOf(0xFF, 0xFF, 0xFF, 0xFF) == 0xFFFF_FFFF
  {
  }
}
