/** The Willem programmer board seen through the PC parallel port. The
    host writes the data and control ports; the board turns those writes
    into pin changes of the emulated chip, clocks a 24-bit address shift
    register and an 8-bit data shift register, and answers on the status
    port. The chip library's functions (`SetVPP`, `SetAddrBus`,
    `GetDataBus`, ...) are recorded as a trace of `Call`s; what `GetDataBus`
    and `SerialGetData` return is a parameter. Several bits are shared by
    the parallel and the serial interface: `SERIAL_CLK` is `ADDR_BUS_DATA`,
    `SERIAL_DIN` is `ADDR_BUS_CLK`, `SERIAL_CS` is `WE` and `SERIAL_DOUT` is
    `HDW_TEST`; the OE bit selects which reading applies. */
module Willem {
  import opened Bytes

  // Data port bits.
  const AddrBusClk: byte := 0x01
  const AddrBusData: byte := 0x02
  /** Inverted: the data shift register moves on a falling edge. */
  const DataBusClk: byte := 0x04
  const SerialDin: byte := 0x01
  const SerialClk: byte := 0x02

  // Status port bits.
  /** Inverted. */
  const HdwTest: byte := 0x80
  /** Inverted. */
  const DataBusSerIn: byte := 0x40
  /** Inverted. */
  const SerialDout: byte := 0x80

  // Control port bits.
  /** Inverted. */
  const Vpp: byte := 0x01
  /** Inverted: the bit set means the chip's OE is off. */
  const Oe: byte := 0x02
  const Vdd: byte := 0x04
  const We: byte := 0x08
  /** Inverted. */
  const SerialCs: byte := 0x08

  const MaxAddr: nat := 0xFF_FFFF

  /** The address shift register: an `unsigned long` that is masked with
      `MAX_ADDR` after every shift and starts at `MAX_ADDR`, so it never
      leaves 24 bits. */
  type Addr24 = n: int | 0 <= n <= 0xFF_FFFF

  /** A call into the chip library, in the order the board makes them. */
  datatype Call =
    | SetVpp(on: bool)
    | SetOe(on: bool)
    | SetVdd(on: bool)
    | SetWe(on: bool)
    | SerialSetCs(on: bool)
    | SetAddrBus(addr: Addr24)
    | SetDataBus(data: byte)
    | GetDataBus
    | SerialSetData(on: bool)
    | SerialSetClk(on: bool)
    | SerialGetData

  predicate High(port: byte, bit: byte)
  {
    port & bit != 0
  }

  predicate Changes(before: byte, after: byte, bit: byte)
  {
    High(before, bit) != High(after, bit)
  }

  predicate Rises(before: byte, after: byte, bit: byte)
  {
    !High(before, bit) && High(after, bit)
  }

  predicate Falls(before: byte, after: byte, bit: byte)
  {
    High(before, bit) && !High(after, bit)
  }

  // ---------------------------------------------------------------------
  // Address shift register

  /** One rising edge of the address clock: the register moves one place
      up and the data bit enters at bit 0. The source shifts, then ORs
      with `~ADDR_MASK_D0` (bit 0 and the bits above 23) or ANDs with
      `ADDR_MASK_D0` (clears bit 0), then ANDs with `MAX_ADDR`; the bit
      shifted out of bit 23 is dropped. */
  function AddrShift(sr: Addr24, bit: bool): (r: Addr24)
    ensures r % 2 == (if bit then 1 else 0)
    ensures r / 2 == sr % 0x80_0000
  {
    var b := if bit then 1 else 0;
    var low := sr % 0x80_0000;
    assert 2 * sr + b == (sr / 0x80_0000) * 0x100_0000 + (2 * low + b);
    ModUnique(2 * sr + b, 0x100_0000, sr / 0x80_0000, 2 * low + b);
    (2 * sr + b) % 0x100_0000
  }

  /** The number the bits spell, most significant first. */
  function BitsValue(bits: seq<bool>): (r: nat)
    ensures r < Pow2(|bits|)
  {
    if bits == [] then 0
    else 2 * BitsValue(bits[..|bits| - 1]) + (if bits[|bits| - 1] then 1 else 0)
  }

  /** The register after the bits were clocked in, first bit first. */
  function ShiftIn(sr: Addr24, bits: seq<bool>): Addr24
  {
    if bits == [] then sr else AddrShift(ShiftIn(sr, bits[..|bits| - 1]), bits[|bits| - 1])
  }

  /** `sr` shifted `n` places up, without a width limit. */
  function Scaled(sr: nat, n: nat): (r: nat)
    ensures r == sr * Pow2(n)
  {
    if n == 0 then sr
    else
      MulDouble(sr, Pow2(n - 1));
      2 * Scaled(sr, n - 1)
  }

  /** Clocking in `n` bits is shifting the old contents `n` places up,
      adding the bits and keeping the low 24 bits. */
  lemma {:induction false} ShiftInValue(sr: Addr24, bits: seq<bool>)
    ensures ShiftIn(sr, bits) == (Scaled(sr, |bits|) + BitsValue(bits)) % 0x100_0000
  {
    if bits != [] {
      var init := bits[..|bits| - 1];
      var b := if bits[|bits| - 1] then 1 else 0;
      ShiftInValue(sr, init);
      var a := Scaled(sr, |init|) + BitsValue(init);
      assert Scaled(sr, |bits|) + BitsValue(bits) == 2 * a + b;
      ModDouble(a, b);
    }
  }

  /** Twenty-four clock pulses load any 24-bit address, whatever the
      register held before. */
  lemma ShiftIn24(sr: Addr24, bits: seq<bool>)
    requires |bits| == 24
    ensures ShiftIn(sr, bits) == BitsValue(bits)
  {
    Pow2Values();
    ShiftInValue(sr, bits);
    ModUnique(Scaled(sr, 24) + BitsValue(bits), 0x100_0000, sr, BitsValue(bits));
  }

  lemma MulDouble(x: nat, p: nat)
    ensures x * (2 * p) == 2 * (x * p)
  {
  }

  /** Doubling and adding commute with keeping the low 24 bits. */
  lemma ModDouble(a: nat, b: nat)
    ensures (2 * a + b) % 0x100_0000 == (2 * (a % 0x100_0000) + b) % 0x100_0000
  {
    var x := a % 0x100_0000;
    var q := a / 0x100_0000;
    var y := 2 * x + b;
    var q2 := y / 0x100_0000;
    assert a == q * 0x100_0000 + x;
    assert y == q2 * 0x100_0000 + y % 0x100_0000;
    assert 2 * a + b == (2 * q + q2) * 0x100_0000 + y % 0x100_0000;
    ModUnique(2 * a + b, 0x100_0000, 2 * q + q2, y % 0x100_0000);
  }

  // ---------------------------------------------------------------------
  // Control port

  /** The chip calls of one control port write, from the old and the new
      port value and the address register. */
  function CtrlCalls(before: byte, after: byte, sr: Addr24): seq<Call>
  {
    VppCalls(before, after) + OeCalls(before, after, sr) + VddCalls(before, after)
    + WeCalls(before, after) + CsCalls(before, after)
  }

  /** A control port write of the value the port already holds calls
      nothing. */
  lemma CtrlCallsQuiet(port: byte, sr: Addr24)
    ensures CtrlCalls(port, port, sr) == []
  {
  }

  /** Each part of a control port write calls only its own pin. */
  lemma CtrlCallsParts(before: byte, after: byte, sr: Addr24)
    ensures var vpp, oe, vdd := VppCalls(before, after), OeCalls(before, after, sr), VddCalls(before, after);
      var we, cs := WeCalls(before, after), CsCalls(before, after);
      && CtrlCalls(before, after, sr) == vpp + oe + vdd + we + cs
      && (forall i :: 0 <= i < |vpp| ==> vpp[i].SetVpp?)
      && (forall i :: 0 <= i < |oe| ==> oe[i].SetOe? || oe[i].SetAddrBus?)
      && (forall i :: 0 <= i < |vdd| ==> vdd[i].SetVdd?)
      && (forall i :: 0 <= i < |we| ==> we[i].SetWe?)
      && (forall i :: 0 <= i < |cs| ==> cs[i].SerialSetCs?)
  {
  }

  /** The supplies: VPP (inverted) and VDD are driven exactly when their
      bit changed, to the new level. */
  lemma CtrlCallsSupplies(before: byte, after: byte, sr: Addr24)
    ensures var r := CtrlCalls(before, after, sr);
      && (forall v :: SetVpp(v) in r <==> Changes(before, after, Vpp) && v == !High(after, Vpp))
      && (forall v :: SetVdd(v) in r <==> Changes(before, after, Vdd) && v == High(after, Vdd))
  {
    VppDriven(before, after, sr);
    VddDriven(before, after, sr);
  }

  /** OE (inverted) is driven exactly when its bit changed, and switching
      it off also puts the address register on the chip's address bus. */
  lemma CtrlCallsOe(before: byte, after: byte, sr: Addr24)
    ensures var r := CtrlCalls(before, after, sr);
      && (forall v :: SetOe(v) in r <==> Changes(before, after, Oe) && v == !High(after, Oe))
      && (forall a :: SetAddrBus(a) in r <==> Rises(before, after, Oe) && a == sr)
  {
    OeDriven(before, after, sr);
    AddrDriven(before, after, sr);
  }

  /** WE and the serial CS (inverted), which share a bit, are driven
      exactly when that bit changed. */
  lemma CtrlCallsWe(before: byte, after: byte, sr: Addr24)
    ensures var r := CtrlCalls(before, after, sr);
      && (forall v :: SetWe(v) in r <==> Changes(before, after, We) && v == High(after, We))
      && (forall v :: SerialSetCs(v) in r <==> Changes(before, after, SerialCs) && v == !High(after, SerialCs))
  {
    WeDriven(before, after, sr);
    CsDriven(before, after, sr);
  }

  lemma VppDriven(before: byte, after: byte, sr: Addr24)
    ensures forall v :: SetVpp(v) in CtrlCalls(before, after, sr) <==> Changes(before, after, Vpp) && v == !High(after, Vpp)
  {
    CtrlCallsIn(before, after, sr);
  }

  lemma VddDriven(before: byte, after: byte, sr: Addr24)
    ensures forall v :: SetVdd(v) in CtrlCalls(before, after, sr) <==> Changes(before, after, Vdd) && v == High(after, Vdd)
  {
    CtrlCallsIn(before, after, sr);
  }

  lemma OeDriven(before: byte, after: byte, sr: Addr24)
    ensures forall v :: SetOe(v) in CtrlCalls(before, after, sr) <==> Changes(before, after, Oe) && v == !High(after, Oe)
  {
    CtrlCallsIn(before, after, sr);
  }

  lemma AddrDriven(before: byte, after: byte, sr: Addr24)
    ensures forall a :: SetAddrBus(a) in CtrlCalls(before, after, sr) <==> Rises(before, after, Oe) && a == sr
  {
    CtrlCallsIn(before, after, sr);
  }

  lemma WeDriven(before: byte, after: byte, sr: Addr24)
    ensures forall v :: SetWe(v) in CtrlCalls(before, after, sr) <==> Changes(before, after, We) && v == High(after, We)
  {
    CtrlCallsIn(before, after, sr);
  }

  lemma CsDriven(before: byte, after: byte, sr: Addr24)
    ensures forall v :: SerialSetCs(v) in CtrlCalls(before, after, sr) <==>
              Changes(before, after, SerialCs) && v == !High(after, SerialCs)
  {
    CtrlCallsIn(before, after, sr);
  }

  lemma CtrlCallsIn(before: byte, after: byte, sr: Addr24)
    ensures forall c :: c in CtrlCalls(before, after, sr) <==>
      c in VppCalls(before, after) || c in OeCalls(before, after, sr) || c in VddCalls(before, after)
      || c in WeCalls(before, after) || c in CsCalls(before, after)
  {
  }

  function VppCalls(before: byte, after: byte): seq<Call>
  {
    if Changes(before, after, Vpp) then [SetVpp(!High(after, Vpp))] else []
  }

  /** OE switched off also puts the address register on the chip's bus. */
  function OeCalls(before: byte, after: byte, sr: Addr24): seq<Call>
  {
    if !Changes(before, after, Oe) then []
    else [SetOe(!High(after, Oe))] + (if High(after, Oe) then [SetAddrBus(sr)] else [])
  }

  function VddCalls(before: byte, after: byte): seq<Call>
  {
    if Changes(before, after, Vdd) then [SetVdd(High(after, Vdd))] else []
  }

  function WeCalls(before: byte, after: byte): seq<Call>
  {
    if Changes(before, after, We) then [SetWe(High(after, We))] else []
  }

  function CsCalls(before: byte, after: byte): seq<Call>
  {
    if Changes(before, after, SerialCs) then [SerialSetCs(!High(after, SerialCs))] else []
  }

  /** WE and the serial CS share a bit: a write that drives one drives the
      other, with the opposite level. */
  lemma WeIsSerialCs(before: byte, after: byte, sr: Addr24, v: bool)
    ensures SetWe(v) in CtrlCalls(before, after, sr) <==> SerialSetCs(!v) in CtrlCalls(before, after, sr)
  {
    CtrlCallsWe(before, after, sr);
  }

  // ---------------------------------------------------------------------
  // Data port

  /** The board's registers. */
  datatype Regs = Regs(data: byte, status: byte, control: byte, addrSr: Addr24, dataSr: byte)

  datatype Step = Step(regs: Regs, calls: seq<Call>)

  /** The serial interface part of a data port write (OE off only): on a
      change of the serial clock the chip gets the clock and, on a rising
      edge, the data bit before it; on a rising edge the chip's data pin is
      read and SERIAL_DOUT shows it inverted. The result says whether the
      chip pin read 0 ("forced"). */
  function SerialPart(before: byte, data: byte, control: byte, status: byte, serialOut: byte)
    : (s: (byte, bool, seq<Call>))
    ensures s.1 <==> High(control, Oe) && Rises(before, data, SerialClk) && serialOut == 0
    ensures s.0 & 0x7F == status & 0x7F
    ensures High(control, Oe) && Rises(before, data, SerialClk) ==> (High(s.0, SerialDout) <==> serialOut == 0)
    ensures !(High(control, Oe) && Rises(before, data, SerialClk)) ==> s.0 == status
  {
    var rising := Rises(before, data, SerialClk);
    if !High(control, Oe) || !Changes(before, data, SerialClk) then (status, false, [])
    else if !rising then (status, false, [SerialSetClk(false)])
    else
      var forced := serialOut == 0;
      var status' := if forced then status | SerialDout else status & !SerialDout;
      (status', forced, [SerialSetData(High(data, SerialDin)), SerialSetClk(true), SerialGetData])
  }

  /** The address part (OE on only): a rising address clock shifts the
      register and puts it on the chip's bus. */
  function AddrPart(before: byte, data: byte, control: byte, sr: Addr24): (a: (Addr24, seq<Call>))
    ensures !High(control, Oe) && Rises(before, data, AddrBusClk) ==>
              a.0 == AddrShift(sr, High(data, AddrBusData))
    ensures !(!High(control, Oe) && Rises(before, data, AddrBusClk)) ==> a.0 == sr
  {
    if High(control, Oe) || !Rises(before, data, AddrBusClk) then (sr, [])
    else
      var sr' := AddrShift(sr, High(data, AddrBusData));
      (sr', [SetAddrBus(sr')])
  }

  /** The low byte of a 16-bit bus value, as the `unsigned char`
      register takes it. */
  function LowByte(w: u16): byte
  {
    (w & 0xFF) as byte
  }

  /** Whether a falling data clock loads the data shift register in
      parallel rather than shifting it. */
  predicate Loads(data: byte, control: byte)
  {
    High(data, AddrBusData) && !High(control, Oe)
  }

  /** The data shift register part: on a falling data clock it loads the
      low byte of the chip's data bus (after the address register is put
      on the bus) or shifts one place up; DATA_BUS_SER_IN then shows its
      top bit inverted. */
  function DataClkPart(before: byte, data: byte, control: byte, status: byte, sr: Addr24, dataSr: byte, chipData: u16)
    : (d: (byte, byte, seq<Call>))
    ensures Falls(before, data, DataBusClk) && Loads(data, control) ==> d.0 == LowByte(chipData)
    ensures Falls(before, data, DataBusClk) && !Loads(data, control) ==> d.0 == dataSr << 1
    ensures !Falls(before, data, DataBusClk) ==> d.0 == dataSr && d.1 == status
    ensures Falls(before, data, DataBusClk) ==> (High(d.1, DataBusSerIn) <==> !High(d.0, 0x80))
    ensures d.1 & 0xBF == status & 0xBF
  {
    if !Falls(before, data, DataBusClk) then (dataSr, status, [])
    else
      var load := Loads(data, control);
      var dataSr' := if load then LowByte(chipData) else dataSr << 1;
      (dataSr', SerIn(status, dataSr'), if load then [SetAddrBus(sr), GetDataBus] else [])
  }

  /** The status port showing the top bit of the data shift register,
      inverted, in DATA_BUS_SER_IN; the other bits are kept. */
  function SerIn(status: byte, dataSr: byte): (s: byte)
    ensures High(s, DataBusSerIn) <==> !High(dataSr, 0x80)
    ensures s & 0xBF == status & 0xBF
  {
    if dataSr & 0x80 != 0 then status & !DataBusSerIn else status | DataBusSerIn
  }

  /** HDW_TEST: low exactly when the address clock is high or VDD is off,
      unless the serial interface has just set the shared bit. */
  function HdwPart(status: byte, data: byte, control: byte, forced: bool): (h: byte)
    ensures h & 0x7F == status & 0x7F
    ensures forced ==> h == status
    ensures !forced ==> (High(h, HdwTest) <==> !High(data, AddrBusClk) && High(control, Vdd))
  {
    if forced then status
    else if High(data, AddrBusClk) || !High(control, Vdd) then status & !HdwTest
    else status | HdwTest
  }

  /** The chip's data bus follows the data port while OE is off. */
  function BusCalls(data: byte, control: byte): (r: seq<Call>)
  {
    if High(control, Oe) then [SetDataBus(data)] else []
  }

  /** One data port write. `chipData` is what the chip library's
      `GetDataBus` returns and `serialOut` what `SerialGetData` returns,
      when they are called. */
  function DataStep(r: Regs, data: byte, chipData: u16, serialOut: byte): (out: Step)
    ensures out.regs.data == data && out.regs.control == r.control
  {
    var serial := SerialPart(r.data, data, r.control, r.status, serialOut);
    var addr := AddrPart(r.data, data, r.control, r.addrSr);
    var clk := DataClkPart(r.data, data, r.control, serial.0, addr.0, r.dataSr, chipData);
    var status := HdwPart(clk.1, data, r.control, serial.1);
    Step(Regs(data, status, r.control, addr.0, clk.0), BusCalls(data, r.control) + serial.2 + addr.1 + clk.2)
  }

  /** The shift registers after a data port write: with OE on, a rising
      address clock shifts the data bit into the address register; a
      falling data clock loads the data register from the chip (OE on and
      ADDR_BUS_DATA high) or shifts it; nothing else moves them. */
  lemma DataStepShifts(r: Regs, data: byte, chipData: u16, serialOut: byte)
    ensures var out := DataStep(r, data, chipData, serialOut).regs;
      && (!High(r.control, Oe) && Rises(r.data, data, AddrBusClk) ==>
            out.addrSr == AddrShift(r.addrSr, High(data, AddrBusData)))
      && (!(!High(r.control, Oe) && Rises(r.data, data, AddrBusClk)) ==> out.addrSr == r.addrSr)
      && (Falls(r.data, data, DataBusClk) && Loads(data, r.control) ==> out.dataSr == LowByte(chipData))
      && (Falls(r.data, data, DataBusClk) && !Loads(data, r.control) ==> out.dataSr == r.dataSr << 1)
      && (!Falls(r.data, data, DataBusClk) ==> out.dataSr == r.dataSr)
  {
  }

  /** The status port after a data port write: DATA_BUS_SER_IN is the
      inverted top bit of the data register after a falling data clock and
      is kept otherwise. */
  lemma DataStepSerIn(r: Regs, data: byte, chipData: u16, serialOut: byte)
    ensures var out := DataStep(r, data, chipData, serialOut).regs;
      && (Falls(r.data, data, DataBusClk) ==> (High(out.status, DataBusSerIn) <==> !High(out.dataSr, 0x80)))
      && (!Falls(r.data, data, DataBusClk) ==> High(out.status, DataBusSerIn) == High(r.status, DataBusSerIn))
  {
    var serial := SerialPart(r.data, data, r.control, r.status, serialOut);
    var addr := AddrPart(r.data, data, r.control, r.addrSr);
    var clk := DataClkPart(r.data, data, r.control, serial.0, addr.0, r.dataSr, chipData);
    var status := HdwPart(clk.1, data, r.control, serial.1);
    assert DataStep(r, data, chipData, serialOut).regs.status == status;
    StatusBits(r.status, serial.0, clk.1, status);
  }

  /** A data port write keeps bits 0 to 5 of the status port. */
  lemma DataStepKeepsLowBits(r: Regs, data: byte, chipData: u16, serialOut: byte)
    ensures DataStep(r, data, chipData, serialOut).regs.status & 0x3F == r.status & 0x3F
  {
    var serial := SerialPart(r.data, data, r.control, r.status, serialOut);
    var addr := AddrPart(r.data, data, r.control, r.addrSr);
    var clk := DataClkPart(r.data, data, r.control, serial.0, addr.0, r.dataSr, chipData);
    var status := HdwPart(clk.1, data, r.control, serial.1);
    assert DataStep(r, data, chipData, serialOut).regs.status == status;
    StatusBits(r.status, serial.0, clk.1, status);
  }

  /** The shared HDW_TEST / SERIAL_DOUT bit after a data port write: set
      when the serial chip has just pulled its data pin low, and otherwise
      set exactly when the address clock is low and VDD is on. */
  lemma DataStepHdwTest(r: Regs, data: byte, chipData: u16, serialOut: byte)
    ensures High(DataStep(r, data, chipData, serialOut).regs.status, HdwTest) <==>
              (High(r.control, Oe) && Rises(r.data, data, SerialClk) && serialOut == 0)
              || (!High(data, AddrBusClk) && High(r.control, Vdd))
  {
    var serial := SerialPart(r.data, data, r.control, r.status, serialOut);
    var addr := AddrPart(r.data, data, r.control, r.addrSr);
    var clk := DataClkPart(r.data, data, r.control, serial.0, addr.0, r.dataSr, chipData);
    var status := HdwPart(clk.1, data, r.control, serial.1);
    assert DataStep(r, data, chipData, serialOut).regs.status == status;
    StatusBits(r.status, serial.0, clk.1, status);
  }

  /** The status bits each part touches. */
  lemma StatusBits(s0: byte, s1: byte, s2: byte, s3: byte)
    requires s1 & 0x7F == s0 & 0x7F
    requires s2 & 0xBF == s1 & 0xBF
    requires s3 & 0x7F == s2 & 0x7F
    ensures s3 & 0x3F == s0 & 0x3F
    ensures High(s3, DataBusSerIn) == High(s2, DataBusSerIn)
    ensures High(s2, HdwTest) == High(s1, HdwTest)
  {
  }

  /** Each block of a data port write makes only its own kind of call. */
  lemma DataCallsParts(r: Regs, data: byte, chipData: u16, serialOut: byte)
    ensures var serial := SerialPart(r.data, data, r.control, r.status, serialOut);
      var addr := AddrPart(r.data, data, r.control, r.addrSr);
      var clk := DataClkPart(r.data, data, r.control, serial.0, addr.0, r.dataSr, chipData).2;
      var bus := BusCalls(data, r.control);
      && DataStep(r, data, chipData, serialOut).calls == bus + serial.2 + addr.1 + clk
      && DataStep(r, data, chipData, serialOut).regs.addrSr == addr.0
      && (forall i :: 0 <= i < |bus| ==> bus[i].SetDataBus?)
      && (forall i :: 0 <= i < |serial.2| ==>
            serial.2[i].SerialSetData? || serial.2[i].SerialSetClk? || serial.2[i].SerialGetData?)
      && (forall i :: 0 <= i < |addr.1| ==> addr.1[i].SetAddrBus?)
      && (forall i :: 0 <= i < |clk| ==> clk[i].SetAddrBus? || clk[i].GetDataBus?)
  {
  }

  /** The serial chip's calls of a data port write: only while OE is off,
      the clock on each change of SERIAL_CLK, and on its rising edge the
      data bit before it and the read of the chip's data pin after it. */
  lemma DataStepSerialCalls(r: Regs, data: byte, chipData: u16, serialOut: byte)
    ensures var calls := DataStep(r, data, chipData, serialOut).calls;
      && (SerialGetData in calls <==> High(r.control, Oe) && Rises(r.data, data, SerialClk))
      && (forall v :: SerialSetClk(v) in calls <==>
            High(r.control, Oe) && Changes(r.data, data, SerialClk) && v == High(data, SerialClk))
      && (forall v :: SerialSetData(v) in calls <==>
            High(r.control, Oe) && Rises(r.data, data, SerialClk) && v == High(data, SerialDin))
  {
    DataCallsParts(r, data, chipData, serialOut);
    SerialPartCalls(r.data, data, r.control, r.status, serialOut);
  }

  lemma SerialPartCalls(before: byte, data: byte, control: byte, status: byte, serialOut: byte)
    ensures var calls := SerialPart(before, data, control, status, serialOut).2;
      && GetDataBus !in calls && (forall x :: SetDataBus(x) !in calls) && (forall x :: SetAddrBus(x) !in calls)
      && (SerialGetData in calls <==> High(control, Oe) && Rises(before, data, SerialClk))
      && (forall v :: SerialSetClk(v) in calls <==>
            High(control, Oe) && Changes(before, data, SerialClk) && v == High(data, SerialClk))
      && (forall v :: SerialSetData(v) in calls <==>
            High(control, Oe) && Rises(before, data, SerialClk) && v == High(data, SerialDin))
  {
    if !High(control, Oe) || !Changes(before, data, SerialClk) {
    } else if !Rises(before, data, SerialClk) {
    } else {
    }
  }

  /** The parallel chip's calls of a data port write: the data bus
      follows the port while OE is off; while OE is on, the address
      register goes to the address bus after a shift and before a parallel
      load, which alone reads the chip's data bus. */
  lemma DataStepBusCalls(r: Regs, data: byte, chipData: u16, serialOut: byte)
    ensures var out := DataStep(r, data, chipData, serialOut);
      && (forall d :: SetDataBus(d) in out.calls <==> High(r.control, Oe) && d == data)
      && (GetDataBus in out.calls <==> Falls(r.data, data, DataBusClk) && Loads(data, r.control))
      && (forall a :: SetAddrBus(a) in out.calls <==>
            !High(r.control, Oe) && a == out.regs.addrSr
            && (Rises(r.data, data, AddrBusClk) || (Falls(r.data, data, DataBusClk) && High(data, AddrBusData))))
  {
    var serial := SerialPart(r.data, data, r.control, r.status, serialOut);
    var addr := AddrPart(r.data, data, r.control, r.addrSr);
    var clk := DataClkPart(r.data, data, r.control, serial.0, addr.0, r.dataSr, chipData).2;
    var bus := BusCalls(data, r.control);
    DataCallsParts(r, data, chipData, serialOut);
    AddrPartCalls(r.data, data, r.control, r.addrSr);
    DataClkCalls(r.data, data, r.control, serial.0, addr.0, r.dataSr, chipData);
    SerialPartCalls(r.data, data, r.control, r.status, serialOut);
    assert forall c :: c in DataStep(r, data, chipData, serialOut).calls <==>
                       c in bus || c in serial.2 || c in addr.1 || c in clk;
  }

  lemma AddrPartCalls(before: byte, data: byte, control: byte, sr: Addr24)
    ensures var a := AddrPart(before, data, control, sr);
      && GetDataBus !in a.1 && (forall x :: SetDataBus(x) !in a.1)
      && (forall x :: SetAddrBus(x) in a.1 <==> !High(control, Oe) && Rises(before, data, AddrBusClk) && x == a.0)
  {
  }

  lemma DataClkCalls(before: byte, data: byte, control: byte, status: byte, sr: Addr24, dataSr: byte, chipData: u16)
    ensures var calls := DataClkPart(before, data, control, status, sr, dataSr, chipData).2;
      && (GetDataBus in calls <==> Falls(before, data, DataBusClk) && Loads(data, control))
      && (forall x :: SetDataBus(x) !in calls)
      && (forall x :: SetAddrBus(x) in calls <==> Falls(before, data, DataBusClk) && Loads(data, control) && x == sr)
  {
  }

  /** A chip read through the data shift register: after the parallel
      load, the status port shows the chip's top data bit inverted. */
  lemma LoadShowsTopBit(r: Regs, data: byte, chipData: u16, serialOut: byte)
    requires Falls(r.data, data, DataBusClk) && Loads(data, r.control)
    ensures High(DataStep(r, data, chipData, serialOut).regs.status, DataBusSerIn) <==> chipData & 0x80 == 0
  {
    DataStepShifts(r, data, chipData, serialOut);
    DataStepSerIn(r, data, chipData, serialOut);
  }

  /** A data port write that changes none of its bits moves no register
      and calls nothing but the data bus (OE off). */
  lemma SameDataQuiet(r: Regs, chipData: u16, serialOut: byte)
    ensures DataStep(r, r.data, chipData, serialOut).calls == BusCalls(r.data, r.control)
    ensures DataStep(r, r.data, chipData, serialOut).regs.addrSr == r.addrSr
    ensures DataStep(r, r.data, chipData, serialOut).regs.dataSr == r.dataSr
  {
  }

  // ---------------------------------------------------------------------
  // The programmer object

  class WillemProg {
    var dataPort: byte
    var statusPort: byte
    var controlPort: byte
    var addrSerialSr: Addr24
    var dataSerialSr: byte
    /** Every chip library call made so far. */
    var calls: seq<Call>

    function Registers(): Regs
      reads this
    {
      Regs(dataPort, statusPort, controlPort, addrSerialSr, dataSerialSr)
    }

    /** The base class's power-on port values, with the address register
        set to `MAX_ADDR`. */
    constructor ()
      ensures Registers() == Regs(0xFB, 0xFF, 0xFE, MaxAddr, 0xFF) && calls == []
    {
      dataPort, statusPort, controlPort := 0xFB, 0xFF, 0xFE;
      addrSerialSr, dataSerialSr := MaxAddr, 0xFF;
      calls := [];
    }

    /** A write to the control port: the port is stored and every changed
        pin is passed on to the chip. */
    method EmuCtrlPort(data: byte)
      modifies this`controlPort, this`calls
      ensures controlPort == data
      ensures calls == old(calls) + CtrlCalls(old(controlPort), data, addrSerialSr)
    {
      var before := controlPort;
      controlPort := data;
      var out: seq<Call> := [];
      if Changes(before, data, Vpp) {
        out := out + [SetVpp(!High(data, Vpp))];
      }
      assert out == VppCalls(before, data);
      if Changes(before, data, Oe) {
        out := out + [SetOe(!High(data, Oe))];
        if High(data, Oe) {
          out := out + [SetAddrBus(addrSerialSr)];
        }
      }
      assert out == VppCalls(before, data) + OeCalls(before, data, addrSerialSr);
      if Changes(before, data, Vdd) {
        out := out + [SetVdd(High(data, Vdd))];
      }
      assert out == VppCalls(before, data) + OeCalls(before, data, addrSerialSr) + VddCalls(before, data);
      if Changes(before, data, We) {
        out := out + [SetWe(High(data, We))];
      }
      assert out == VppCalls(before, data) + OeCalls(before, data, addrSerialSr) + VddCalls(before, data)
                    + WeCalls(before, data);
      if Changes(before, data, SerialCs) {
        out := out + [SerialSetCs(!High(data, SerialCs))];
      }
      calls := calls + out;
    }

    /** A write to the data port: the port is stored, then the data bus,
        the serial interface, the address and data shift registers and
        the status port react in the order the board evaluates them. */
    method EmuDataPort(data: byte, chipData: u16, serialOut: byte)
      modifies this`dataPort, this`statusPort, this`addrSerialSr, this`dataSerialSr, this`calls
      ensures Registers() == DataStep(old(Registers()), data, chipData, serialOut).regs
      ensures calls == old(calls) + DataStep(old(Registers()), data, chipData, serialOut).calls
    {
      var before := dataPort;
      dataPort := data;
      var bus: seq<Call> := [];
      if High(controlPort, Oe) {
        bus := [SetDataBus(data)];
      }
      var s1, forced, serial := SerialClock(before, data, controlPort, statusPort, serialOut);
      var sr, addr := AddrClock(before, data, controlPort, addrSerialSr);
      var dataSr, s2, clk := DataClock(before, data, controlPort, s1, sr, dataSerialSr, chipData);
      var s3 := HdwTestBit(s2, data, controlPort, forced);
      statusPort, addrSerialSr, dataSerialSr := s3, sr, dataSr;
      calls := calls + (bus + serial + addr + clk);
    }
  }

  /** The serial clock block of a data port write. */
  method SerialClock(before: byte, data: byte, control: byte, status: byte, serialOut: byte)
    returns (status': byte, forced: bool, serial: seq<Call>)
    ensures (status', forced, serial) == SerialPart(before, data, control, status, serialOut)
  {
    status', forced, serial := status, false, [];
    if High(control, Oe) && Changes(before, data, SerialClk) {
      var rising := High(data, SerialClk);
      if rising {
        serial := serial + [SerialSetData(High(data, SerialDin))];
      }
      serial := serial + [SerialSetClk(rising)];
      if rising {
        serial := serial + [SerialGetData];
        forced := serialOut == 0;
        if forced {
          status' := status | SerialDout;
        } else {
          status' := status & !SerialDout;
        }
      }
    }
    assert serial == SerialPart(before, data, control, status, serialOut).2;
  }

  /** The address clock block of a data port write. */
  method AddrClock(before: byte, data: byte, control: byte, sr: Addr24) returns (sr': Addr24, addr: seq<Call>)
    ensures (sr', addr) == AddrPart(before, data, control, sr)
  {
    sr', addr := sr, [];
    if !High(control, Oe) && Rises(before, data, AddrBusClk) {
      sr' := AddrShift(sr, High(data, AddrBusData));
      addr := [SetAddrBus(sr')];
    }
  }

  /** The data clock block of a data port write. */
  method DataClock(before: byte, data: byte, control: byte, status: byte, sr: Addr24, dataSr: byte, chipData: u16)
    returns (dataSr': byte, status': byte, clk: seq<Call>)
    ensures (dataSr', status', clk) == DataClkPart(before, data, control, status, sr, dataSr, chipData)
  {
    dataSr', status', clk := dataSr, status, [];
    if Falls(before, data, DataBusClk) {
      if High(data, AddrBusData) && !High(control, Oe) {
        clk := [SetAddrBus(sr), GetDataBus];
        dataSr' := LowByte(chipData);
      } else {
        dataSr' := dataSr << 1;
      }
      if dataSr' & 0x80 != 0 {
        status' := status & !DataBusSerIn;
      } else {
        status' := status | DataBusSerIn;
      }
      assert status' == SerIn(status, dataSr');
    }
  }

  /** The HDW_TEST block of a data port write. */
  method HdwTestBit(status: byte, data: byte, control: byte, forced: bool) returns (status': byte)
    ensures status' == HdwPart(status, data, control, forced)
  {
    status' := status;
    if !forced {
      if High(data, AddrBusClk) || !High(control, Vdd) {
        status' := status & !HdwTest;
      } else {
        status' := status | HdwTest;
      }
    }
  }
}
