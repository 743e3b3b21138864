/** The firmware's three buses: the control lines (CE, OE, WE), the data
    bus (an HC595 for output and an HC165 for input) and the address bus
    (an HC595). A pin number of 0xFF means "not connected"; a bus whose
    configuration leaves any of its pins unconnected does nothing. */
module Bus {
  import opened Bytes
  import HC595
  import HC165

  const NoPin: nat := 0xFF

  datatype CtrlBusConfig = CtrlBusConfig(cePin: nat, oePin: nat, wePin: nat)
  datatype DataBusConfig = DataBusConfig(dSinPin: nat, dClkPin: nat, dClrPin: nat,
                                         dRckPin: nat, dSoutPin: nat)
  datatype AddrBusConfig = AddrBusConfig(aSinPin: nat, aClkPin: nat, aClrPin: nat, aRckPin: nat)

  const DefaultCtrlConfig := CtrlBusConfig(NoPin, NoPin, NoPin)
  const DefaultDataConfig := DataBusConfig(NoPin, NoPin, NoPin, NoPin, NoPin)
  const DefaultAddrConfig := AddrBusConfig(NoPin, NoPin, NoPin, NoPin)

  predicate CtrlValid(c: CtrlBusConfig)
  {
    c.cePin != NoPin && c.oePin != NoPin && c.wePin != NoPin
  }

  predicate DataValid(c: DataBusConfig)
  {
    c.dClkPin != NoPin && c.dClrPin != NoPin && c.dRckPin != NoPin
    && c.dSinPin != NoPin && c.dSoutPin != NoPin
  }

  predicate AddrValid(c: AddrBusConfig)
  {
    c.aClkPin != NoPin && c.aClrPin != NoPin && c.aRckPin != NoPin && c.aSinPin != NoPin
  }

  /** The control lines; `ce`, `oe` and `we` are the levels last driven. */
  class CtrlBus {
    var config: CtrlBusConfig
    var ce: bool
    var oe: bool
    var we: bool

    constructor ()
      ensures config == DefaultCtrlConfig && !ce && !oe && !we
    {
      config := DefaultCtrlConfig;
      ce, oe, we := false, false, false;
    }

    method Configure(c: CtrlBusConfig)
      modifies this`config
      ensures config == c
    {
      config := c;
    }

    function GetConfig(): CtrlBusConfig
      reads this
    {
      config
    }

    method SetCE(value: bool)
      modifies this`ce
      ensures ce == if CtrlValid(config) then value else old(ce)
    {
      if !CtrlValid(config) {
        return;
      }
      ce := value;
    }

    method SetOE(value: bool)
      modifies this`oe
      ensures oe == if CtrlValid(config) then value else old(oe)
    {
      if !CtrlValid(config) {
        return;
      }
      oe := value;
    }

    method SetWE(value: bool)
      modifies this`we
      ensures we == if CtrlValid(config) then value else old(we)
    {
      if !CtrlValid(config) {
        return;
      }
      we := value;
    }
  }

  /** The data bus. `data` is the last value written; reads sample the
      input register, whose pin levels are an input. */
  class DataBus {
    var config: DataBusConfig
    const out: HC595.HC595
    const input: HC165.HC165
    var data: u16

    /** The registers are wired as `config` says. */
    predicate Wired()
      reads this, out, input
    {
      out.sinPin == config.dSinPin && out.clkPin == config.dClkPin
      && out.clrPin == config.dClrPin && out.rckPin == config.dRckPin
      && input.plPin == config.dClrPin && input.clkPin == config.dClkPin
      && input.cePin == NoPin && input.q7Pin == config.dSoutPin && input.nq7Pin == NoPin
    }

    constructor ()
      ensures config == DefaultDataConfig && data == 0 && Wired()
      ensures fresh(out) && fresh(input)
    {
      config := DefaultDataConfig;
      data := 0;
      out := new HC595.HC595();
      input := new HC165.HC165();
    }

    /** Wires both registers, enables them, clears the output register and
        resets the last value to 0. */
    method Configure(c: DataBusConfig)
      modifies this`config, this`data, out, input
      ensures config == c && data == 0 && Wired()
      ensures out.oe && input.ce
      ensures |out.buffer| == |old(out.buffer)| && AllEqual(out.buffer, 0)
      ensures out.wire == old(out.wire)
    {
      config := c;
      out.Configure(c.dSinPin, c.dClkPin, c.dClrPin, c.dRckPin, NoPin, HC595.DefaultPulseTime);
      out.OutputEnable(true);
      input.Configure(c.dClrPin, c.dClkPin, NoPin, c.dSoutPin, NoPin, HC165.DefaultPulseTime);
      input.ChipEnable(true);
      out.Clear();
      data := 0;
    }

    function GetConfig(): DataBusConfig
      reads this
    {
      config
    }

    method WriteByte(value: byte) returns (ok: bool)
      modifies this`data, out`buffer, out`wire
      ensures ok <==> DataValid(config)
      ensures ok ==> data == value as u16 && out.buffer == HC595.Stored(old(out.buffer), [value])
      ensures !ok ==> data == old(data) && out.buffer == old(out.buffer) && out.wire == old(out.wire)
    {
      if !DataValid(config) {
        return false;
      }
      out.WriteByte(value);
      data := value as u16;
      return true;
    }

    method WriteWord(value: u16) returns (ok: bool)
      modifies this`data, out`buffer, out`wire
      ensures ok <==> DataValid(config)
      ensures ok ==> data == value && out.buffer == HC595.Stored(old(out.buffer), HC595.WordBytes(value))
      ensures !ok ==> data == old(data) && out.buffer == old(out.buffer) && out.wire == old(out.wire)
    {
      if !DataValid(config) {
        return false;
      }
      out.WriteWord(value);
      data := value;
      return true;
    }

    /** Loads the input register and shifts one byte in, first bit in as
        bit 0; 0 when the configuration is incomplete. */
    method ReadByte(levels: seq<bool>) returns (r: byte)
      requires |levels| == 8 && Wired()
      ensures !DataValid(config) ==> r == 0
      ensures DataValid(config) ==> r == HC165.Unpacked(levels, 1, true)[0]
    {
      if !DataValid(config) {
        return 0;
      }
      assert input.Samples(levels) == levels;
      r := input.ReadByte(true, levels);
    }

    method ReadWord(levels: seq<bool>) returns (r: u16)
      requires |levels| == 16 && Wired()
      ensures !DataValid(config) ==> r == 0
      ensures DataValid(config) ==> var d := HC165.Unpacked(levels, 2, true);
                r == HC165.WordOf(d[0], d[1])
    {
      if !DataValid(config) {
        return 0;
      }
      assert input.Samples(levels) == levels;
      r := input.ReadWord(true, levels);
    }
  }

  /** The address bus: `address` is the address last put out. */
  class AddrBus {
    var config: AddrBusConfig
    const out: HC595.HC595
    var address: u32

    predicate Wired()
      reads this, out
    {
      out.sinPin == config.aSinPin && out.clkPin == config.aClkPin
      && out.clrPin == config.aClrPin && out.rckPin == config.aRckPin
    }

    constructor ()
      ensures config == DefaultAddrConfig && address == 0 && Wired() && fresh(out)
    {
      config := DefaultAddrConfig;
      address := 0;
      out := new HC595.HC595();
    }

    method Configure(c: AddrBusConfig)
      modifies this`config, this`address, out
      ensures config == c && address == 0 && Wired() && out.oe
      ensures |out.buffer| == |old(out.buffer)| && AllEqual(out.buffer, 0)
      ensures out.wire == old(out.wire)
    {
      config := c;
      out.Configure(c.aSinPin, c.aClkPin, c.aClrPin, c.aRckPin, NoPin, HC595.DefaultPulseTime);
      out.OutputEnable(true);
      out.Clear();
      address := 0;
    }

    function GetConfig(): AddrBusConfig
      reads this
    {
      config
    }

    method WriteByte(value: byte) returns (ok: bool)
      modifies this`address, out`buffer, out`wire
      ensures ok <==> AddrValid(config)
      ensures ok ==> address == value as u32 && out.buffer == HC595.Stored(old(out.buffer), [value])
      ensures !ok ==> address == old(address) && out.buffer == old(out.buffer) && out.wire == old(out.wire)
    {
      if !AddrValid(config) {
        return false;
      }
      out.WriteByte(value);
      address := value as u32;
      return true;
    }

    method WriteWord(value: u16) returns (ok: bool)
      modifies this`address, out`buffer, out`wire
      ensures ok <==> AddrValid(config)
      ensures ok ==> address == value as u32
                     && out.buffer == HC595.Stored(old(out.buffer), HC595.WordBytes(value))
      ensures !ok ==> address == old(address) && out.buffer == old(out.buffer) && out.wire == old(out.wire)
    {
      if !AddrValid(config) {
        return false;
      }
      out.WriteWord(value);
      address := value as u32;
      return true;
    }

    method WriteDWord(value: u32) returns (ok: bool)
      modifies this`address, out`buffer, out`wire
      ensures ok <==> AddrValid(config)
      ensures ok ==> address == value
                     && out.buffer == HC595.Stored(old(out.buffer), HC595.DWordBytes(value))
      ensures !ok ==> address == old(address) && out.buffer == old(out.buffer) && out.wire == old(out.wire)
    {
      if !AddrValid(config) {
        return false;
      }
      out.WriteDWord(value);
      address := value;
      return true;
    }

    /** Advances the address by one, wrapping at 32 bits. */
    method Increment() returns (ok: bool)
      modifies this`address, out`buffer, out`wire
      ensures ok <==> AddrValid(config)
      ensures ok ==> address == old(address) + 1
                     && out.buffer == HC595.Stored(old(out.buffer), HC595.DWordBytes(address))
      ensures !ok ==> address == old(address) && out.buffer == old(out.buffer) && out.wire == old(out.wire)
    {
      if !AddrValid(config) {
        return false;
      }
      address := address + 1;
      out.WriteDWord(address);
      return true;
    }

    function Get(): u32
      reads this
    {
      address
    }
  }
}
