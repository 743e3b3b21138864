/** The 74HC595 serial-in/parallel-out shift register driver. It keeps a
    software copy of the bytes last shifted out (`buffer`) and clocks every
    write onto the SIN pin, MSB first, starting with the last byte. The bits
    clocked onto SIN are recorded in `wire`, the only GPIO effect kept. */
module HC595 {
  import opened Bytes

  /** Pin number meaning "not connected". */
  const NoPin: nat := 0xFF
  const DefaultPulseTime: nat := 1

  function Zeros(n: nat): (r: seq<byte>)
    ensures |r| == n && AllEqual(r, 0)
  {
    seq(n, _ => 0)
  }

  /** The eight levels driven onto SIN for one byte: bit 7 first. */
  function ByteBits(b: byte): (r: seq<bool>)
    ensures |r| == 8
  {
    seq(8, j requires 0 <= j < 8 => b & Mask(7 - j) != 0)
  }

  /** The levels driven onto SIN for a whole write, last byte first. */
  function ShiftedBits(data: seq<byte>): (r: seq<bool>)
  {
    if data == [] then [] else ShiftedBits(data[1..]) + ByteBits(data[0])
  }

  /** The buffer after a write of `data`: grown to `|data|` if shorter, the
      first `|data|` bytes replaced, the rest kept. */
  function Stored(prev: seq<byte>, data: seq<byte>): (r: seq<byte>)
  {
    if |prev| <= |data| then data else data + prev[|data|..]
  }

  /** Bit `bit` of the buffer, counting bit 0 of byte 0 first; bits past
      the end read as 0. */
  function BitOf(buf: seq<byte>, bit: nat): bool
  {
    var i := bit / 8;
    i < |buf| && HasBit(buf[i], bit % 8)
  }

  /** The buffer extended with zero bytes to at least `n` bytes. */
  function Grown(buf: seq<byte>, n: nat): (r: seq<byte>)
  {
    if n > |buf| then buf + Zeros(n - |buf|) else buf
  }

  /** The buffer after `setBit(bit, v)`: grown with zero bytes to hold the
      bit, and that bit set or cleared. */
  function WithBit(buf: seq<byte>, bit: nat, v: bool): (r: seq<byte>)
  {
    var grown := Grown(buf, bit / 8 + 1);
    grown[bit / 8 := SetMask(grown[bit / 8], bit % 8, v)]
  }

  /** `writeWord` and `writeDWord` store the value little end first. */
  function WordBytes(v: u16): (r: seq<byte>)
  {
    [(v & 0xFF) as byte, ((v & 0xFF00) >> 8) as byte]
  }

  function DWordBytes(v: u32): (r: seq<byte>)
  {
    [(v & 0xFF) as byte, ((v & 0xFF00) >> 8) as byte,
     ((v & 0xFF_0000) >> 16) as byte, ((v & 0xFF00_0000) >> 24) as byte]
  }

  /** The loop of `writeData`: from the last byte to the first, each byte
      is stored in the (already grown) buffer and, when the pins are
      configured, shifted out. */
  method ShiftOut(grown: seq<byte>, data: seq<byte>, shifting: bool) returns (buf: seq<byte>, out: seq<bool>)
    requires |data| <= |grown|
    ensures |buf| == |grown|
    ensures forall j :: 0 <= j < |data| ==> buf[j] == data[j]
    ensures forall j :: |data| <= j < |buf| ==> buf[j] == grown[j]
    ensures out == if shifting then ShiftedBits(data) else []
  {
    buf := grown;
    out := [];
    var k := |data|;
    while k > 0
      invariant 0 <= k <= |data| <= |buf| == |grown|
      invariant forall j :: k <= j < |data| ==> buf[j] == data[j]
      invariant forall j :: |data| <= j < |buf| ==> buf[j] == grown[j]
      invariant out == if shifting then ShiftedBits(data[k..]) else []
    {
      k := k - 1;
      buf := buf[k := data[k]];
      if shifting {
        var bits := ShiftByte(data[k]);
        ShiftedBitsStep(data, k);
        out := out + bits;
      }
    }
    assert data[0..] == data;
  }

  /** The levels one byte puts on SIN, bit 7 down to bit 0. */
  method ShiftByte(b: byte) returns (bits: seq<bool>)
    ensures bits == ByteBits(b)
  {
    bits := [];
    ghost var all := ByteBits(b);
    var n := 0;
    while n < 8
      invariant 0 <= n <= 8
      invariant bits == all[..n]
    {
      assert all[..n + 1] == all[..n] + [all[n]];
      bits := bits + [b & Mask(7 - n) != 0];
      n := n + 1;
    }
  }

  class HC595 {
    var sinPin: nat
    var clkPin: nat
    var clrPin: nat
    var rckPin: nat
    var oePin: nat
    var pulseTime: nat
    var buffer: seq<byte>
    var oe: bool
    var wire: seq<bool>

    /** A driver with no pins configured and an empty buffer. */
    constructor ()
      ensures sinPin == NoPin && clkPin == NoPin && clrPin == NoPin
      ensures rckPin == NoPin && oePin == NoPin && pulseTime == DefaultPulseTime
      ensures buffer == [] && !oe && wire == []
    {
      sinPin, clkPin, clrPin, rckPin, oePin := NoPin, NoPin, NoPin, NoPin, NoPin;
      pulseTime := DefaultPulseTime;
      buffer := [];
      oe := false;
      wire := [];
    }

    method Configure(sin: nat, clk: nat, clr: nat, rck: nat, oeP: nat, pulse: nat)
      modifies this
      ensures sinPin == sin && clkPin == clk && clrPin == clr
      ensures rckPin == rck && oePin == oeP && pulseTime == pulse
      ensures buffer == old(buffer) && oe == old(oe) && wire == old(wire)
    {
      sinPin, clkPin, clrPin, rckPin, oePin, pulseTime := sin, clk, clr, rck, oeP, pulse;
    }

    /** Zeroes every byte of the software copy and keeps its length. */
    method Clear()
      modifies this`buffer
      ensures |buffer| == |old(buffer)| && AllEqual(buffer, 0)
    {
      buffer := Zeros(|buffer|);
    }

    method OutputEnable(value: bool)
      modifies this`oe
      ensures oe == value
    {
      oe := value;
    }

    method OutputDisable()
      modifies this`oe
      ensures !oe
    {
      OutputEnable(false);
    }

    /** Shifts `data` out, last byte first, and records it in `buffer`. */
    method WriteData(data: seq<byte>)
      modifies this`buffer, this`wire
      ensures data == [] ==> buffer == old(buffer) && wire == old(wire)
      ensures data != [] ==> buffer == Stored(old(buffer), data)
      ensures wire == old(wire) + (if data != [] && sinPin != NoPin && clkPin != NoPin
                                   then ShiftedBits(data) else [])
    {
      var size := |data|;
      if size == 0 {
        return;
      }
      var shifting := sinPin != NoPin && clkPin != NoPin;
      var buf := buffer;
      if |buf| < size {
        buf := buf + Zeros(size - |buf|);
      }
      var grown := buf;
      var out;
      buf, out := ShiftOut(grown, data, shifting);
      StoredAfterWrite(old(buffer), grown, buf, data);
      buffer := buf;
      wire := wire + out;
    }

    method WriteByte(value: byte)
      modifies this`buffer, this`wire
      ensures buffer == Stored(old(buffer), [value])
      ensures wire == old(wire) + (if sinPin != NoPin && clkPin != NoPin
                                   then ShiftedBits([value]) else [])
    {
      WriteData([value]);
    }

    method WriteWord(value: u16)
      modifies this`buffer, this`wire
      ensures buffer == Stored(old(buffer), WordBytes(value))
      ensures wire == old(wire) + (if sinPin != NoPin && clkPin != NoPin
                                   then ShiftedBits(WordBytes(value)) else [])
    {
      WriteData([(value & 0xFF) as byte, ((value & 0xFF00) >> 8) as byte]);
    }

    method WriteDWord(value: u32)
      modifies this`buffer, this`wire
      ensures buffer == Stored(old(buffer), DWordBytes(value))
      ensures wire == old(wire) + (if sinPin != NoPin && clkPin != NoPin
                                   then ShiftedBits(DWordBytes(value)) else [])
    {
      WriteData([(value & 0xFF) as byte, ((value & 0xFF00) >> 8) as byte,
                 ((value & 0xFF_0000) >> 16) as byte, ((value & 0xFF00_0000) >> 24) as byte]);
    }

    /** Sets or clears one bit and shifts the whole buffer out again. */
    method SetBit(bit: nat, value: bool)
      modifies this`buffer, this`wire
      ensures buffer == WithBit(old(buffer), bit, value)
      ensures wire == old(wire) + (if sinPin != NoPin && clkPin != NoPin
                                   then ShiftedBits(buffer) else [])
    {
      var index := bit / 8;
      var grown := buffer;
      if index + 1 > |grown| {
        grown := grown + Zeros(index + 1 - |grown|);
      }
      var offset := bit - index * 8;
      assert offset == bit % 8;
      buffer := grown[index := SetMask(grown[index], offset, value)];
      var all := buffer;
      WriteData(all);
    }

    method ResetBit(bit: nat)
      modifies this`buffer, this`wire
      ensures buffer == WithBit(old(buffer), bit, false)
      ensures wire == old(wire) + (if sinPin != NoPin && clkPin != NoPin
                                   then ShiftedBits(buffer) else [])
    {
      SetBit(bit, false);
    }

    function GetData(): seq<byte>
      reads this
    {
      buffer
    }

    function GetBit(bit: nat): bool
      reads this
    {
      BitOf(buffer, bit)
    }

    function GetOE(): bool
      reads this
    {
      oe
    }
  }

  // ---- laws of the buffer operations ----

  /** A write grows the buffer to the data's length and never shrinks it;
      the data land in front and the old tail is kept. */
  lemma StoredShape(prev: seq<byte>, data: seq<byte>)
    ensures |Stored(prev, data)| == if |prev| <= |data| then |data| else |prev|
    ensures Stored(prev, data)[..|data|] == data
    ensures forall j :: |data| <= j < |prev| ==> Stored(prev, data)[j] == prev[j]
  {
  }

  /** `setBit(b, v)` then `getBit(b)` gives `v`. */
  lemma SetThenGet(buf: seq<byte>, bit: nat, v: bool)
    ensures BitOf(WithBit(buf, bit, v), bit) == v
    ensures |WithBit(buf, bit, v)| == if bit / 8 + 1 > |buf| then bit / 8 + 1 else |buf|
  {
    var grown := Grown(buf, bit / 8 + 1);
    SetMaskLaw(grown[bit / 8], bit % 8, v, bit % 8);
  }

  /** `setBit(b, v)` changes no other bit. */
  lemma SetBitFrame(buf: seq<byte>, bit: nat, v: bool, other: nat)
    requires other != bit
    ensures BitOf(WithBit(buf, bit, v), other) == BitOf(buf, other)
  {
    var i := bit / 8;
    var grown := Grown(buf, i + 1);
    var r := WithBit(buf, bit, v);
    var oi := other / 8;
    if oi == i {
      assert other % 8 != bit % 8;
      SetMaskLaw(grown[i], bit % 8, v, other % 8);
      if i >= |buf| {
        ZeroHasNoBit(other % 8);
      }
    } else if oi < |r| {
      assert r[oi] == grown[oi];
      if oi >= |buf| {
        ZeroHasNoBit(other % 8);
      }
    }
  }

  /** Bits past the end of the buffer read as false. */
  lemma GetBitBeyond(buf: seq<byte>, bit: nat)
    requires bit / 8 >= |buf|
    ensures !BitOf(buf, bit)
  {
  }

  /** The word and double-word layouts are little-endian: recomposing the
      stored bytes little end first gives the value back. */
  lemma WordBytesLittleEndian(v: u16)
    ensures (WordBytes(v)[0] as u16) | (WordBytes(v)[1] as u16 << 8) == v
  {
  }

  lemma DWordBytesLittleEndian(v: u32)
    ensures (DWordBytes(v)[0] as u32) | (DWordBytes(v)[1] as u32 << 8)
            | (DWordBytes(v)[2] as u32 << 16) | (DWordBytes(v)[3] as u32 << 24) == v
  {
    var b0, b1, b2, b3 := DWordBytes(v)[0], DWordBytes(v)[1], DWordBytes(v)[2], DWordBytes(v)[3];
    DWordLittleEndianBits(v, b0, b1, b2, b3);
  }

  lemma DWordLittleEndianBits(v: u32, b0: byte, b1: byte, b2: byte, b3: byte)
    requires b0 == (v & 0xFF) as byte && b1 == ((v & 0xFF00) >> 8) as byte
    requires b2 == ((v & 0xFF_0000) >> 16) as byte && b3 == ((v & 0xFF00_0000) >> 24) as byte
    ensures (b0 as u32) | (b1 as u32 << 8) | (b2 as u32 << 16) | (b3 as u32 << 24) == v
  {
  }

  /** The serial order on SIN: 8 bits per byte, the last byte first and
      each byte MSB first. Bit `j` of `data[k]` leaves at position
      `8 * (|data| - 1 - k) + (7 - j)`. */
  lemma {:induction false} ShiftedBitsOrder(data: seq<byte>, k: nat, j: nat)
    requires k < |data| && j < 8
    ensures |ShiftedBits(data)| == 8 * |data|
    ensures ShiftedBits(data)[8 * (|data| - 1 - k) + (7 - j)] == HasBit(data[k], j)
  {
    ShiftedBitsLength(data);
    var rest := ShiftedBits(data[1..]);
    var head := ByteBits(data[0]);
    ShiftedBitsLength(data[1..]);
    assert ShiftedBits(data) == rest + head;
    var idx := 8 * (|data| - 1 - k) + (7 - j);
    if k == 0 {
      assert idx == |rest| + (7 - j);
      assert (rest + head)[idx] == head[7 - j];
    } else {
      ShiftedBitsOrder(data[1..], k - 1, j);
      assert idx < |rest|;
      assert (rest + head)[idx] == rest[idx];
      assert data[1..][k - 1] == data[k];
    }
  }

  /** The byte sequences the driver's data test expects after writing
      0x5A, 0x37, the word 0xA534 and the double word 0x8E743921 in turn. */
  lemma WriteSequenceExample()
    ensures Stored([], [0x5A]) == [0x5A]
    ensures Stored([0x5A], [0x37]) == [0x37]
    ensures Stored([0x37], WordBytes(0xA534)) == [0x34, 0xA5]
    ensures Stored([0x34, 0xA5], DWordBytes(0x8E74_3921)) == [0x21, 0x39, 0x74, 0x8E]
  {
  }

  /** The buffer the write loop leaves is the stored one. */
  lemma StoredAfterWrite(prev: seq<byte>, grown: seq<byte>, buffer: seq<byte>, data: seq<byte>)
    requires |data| > 0
    requires grown == if |prev| < |data| then prev + Zeros(|data| - |prev|) else prev
    requires |buffer| == |grown|
    requires forall j :: 0 <= j < |data| ==> buffer[j] == data[j]
    requires forall j :: |data| <= j < |buffer| ==> buffer[j] == grown[j]
    ensures buffer == Stored(prev, data)
  {
    if |prev| <= |data| {
      assert buffer == data;
    } else {
      assert buffer == data + prev[|data|..];
    }
  }

  /** Shifting one more byte, in front of those already shifted. */
  lemma ShiftedBitsStep(data: seq<byte>, k: nat)
    requires k < |data|
    ensures ShiftedBits(data[k..]) == ShiftedBits(data[k + 1..]) + ByteBits(data[k])
  {
    assert data[k..][1..] == data[k + 1..];
  }

  lemma {:induction false} ShiftedBitsLength(data: seq<byte>)
    ensures |ShiftedBits(data)| == 8 * |data|
  {
    if data != [] {
      ShiftedBitsLength(data[1..]);
    }
  }
}
