/** The data-line wiring of the AT89Cx051 adapter: the programmer's data
    bus D0-D7 reaches the chip's port lines in another order, so every byte
    written is rearranged by `Dout` and every byte read back by `Din`. */
module Mcs51 {
  import opened Bytes

  /** `Dout`: bit 7 goes to 3, 6 to 2, 5 to 4, 4 to 1, 3 to 5, 2 to 0,
      1 to 6 and 0 to 7. */
  function Dout(data: byte): (r: byte)
    ensures (r & 0x08 != 0) <==> (data & 0x80 != 0)
    ensures (r & 0x04 != 0) <==> (data & 0x40 != 0)
    ensures (r & 0x10 != 0) <==> (data & 0x20 != 0)
    ensures (r & 0x02 != 0) <==> (data & 0x10 != 0)
    ensures (r & 0x20 != 0) <==> (data & 0x08 != 0)
    ensures (r & 0x01 != 0) <==> (data & 0x04 != 0)
    ensures (r & 0x40 != 0) <==> (data & 0x02 != 0)
    ensures (r & 0x80 != 0) <==> (data & 0x01 != 0)
  {
    ((data >> 4) & 0x08) | ((data >> 4) & 0x04) | ((data >> 1) & 0x10) |
    ((data >> 3) & 0x02) | ((data << 2) & 0x20) | ((data >> 2) & 0x01) |
    ((data << 5) & 0x40) | ((data << 7) & 0x80)
  }

  /** `Din`: bit 3 goes to 7, 2 to 6, 4 to 5, 1 to 4, 5 to 3, 0 to 2,
      6 to 1 and 7 to 0. */
  function Din(data: byte): (r: byte)
    ensures (r & 0x80 != 0) <==> (data & 0x08 != 0)
    ensures (r & 0x40 != 0) <==> (data & 0x04 != 0)
    ensures (r & 0x20 != 0) <==> (data & 0x10 != 0)
    ensures (r & 0x10 != 0) <==> (data & 0x02 != 0)
    ensures (r & 0x08 != 0) <==> (data & 0x20 != 0)
    ensures (r & 0x04 != 0) <==> (data & 0x01 != 0)
    ensures (r & 0x02 != 0) <==> (data & 0x40 != 0)
    ensures (r & 0x01 != 0) <==> (data & 0x80 != 0)
  {
    ((data << 4) & 0x80) | ((data << 4) & 0x40) | ((data << 1) & 0x20) |
    ((data << 3) & 0x10) | ((data >> 2) & 0x08) | ((data << 2) & 0x04) |
    ((data >> 5) & 0x02) | ((data >> 7) & 0x01)
  }

  /** A byte written through `Dout` reads back unchanged through `Din`. */
  lemma DinDout(x: byte)
    ensures Din(Dout(x)) == x
  {
    SameBits(Din(Dout(x)), x);
  }

  /** And the other way round: the two rearrangements are inverses. */
  lemma DoutDin(x: byte)
    ensures Dout(Din(x)) == x
  {
    SameBits(Dout(Din(x)), x);
  }

  function Bit(b: byte, mask: byte): nat
  {
    if b & mask != 0 then 1 else 0
  }

  /** The number of bits set in `b`. */
  function PopCount(b: byte): (r: nat)
    ensures r <= 8
    ensures r == 0 <==> b == 0
    ensures r == 8 <==> b == 0xFF
  {
    Bit(b, 0x01) + Bit(b, 0x02) + Bit(b, 0x04) + Bit(b, 0x08) +
    Bit(b, 0x10) + Bit(b, 0x20) + Bit(b, 0x40) + Bit(b, 0x80)
  }

  /** A rearrangement of the lines neither gains nor loses a set bit, so
      the all-clear and all-set bytes pass through unchanged. */
  lemma DoutKeepsCount(x: byte)
    ensures PopCount(Dout(x)) == PopCount(x)
    ensures PopCount(Din(x)) == PopCount(x)
    ensures Dout(0) == 0 && Dout(0xFF) == 0xFF
    ensures Din(0) == 0 && Din(0xFF) == 0xFF
  {
    assert PopCount(Dout(0)) == 0 && PopCount(Dout(0xFF)) == 8;
    assert PopCount(Din(0)) == 0 && PopCount(Din(0xFF)) == 8;
  }
}
