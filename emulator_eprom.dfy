/** The UV-EPROM emulated by the host tests: a cell array behind the
    address and data buses and the VDD, VPP, ~CE, ~OE and PGM pins. A
    program pulse at the address of the previous one stores the data bus
    value; at any other address it can only clear bits, as on the real
    part. Six writes of the erased value at address 0 in a row stand for an
    erase and fill the chip with 0xFFFF. */
module EmulatorEprom {
  import opened Bytes
  import FwDevice

  type Address = FwDevice.Address

  /** A chip of `size` cells, each 0xFFFF. */
  function Filled(size: nat): (r: seq<u16>)
    ensures |r| == size && forall k :: 0 <= k < size ==> r[k] == 0xFFFF
  {
    seq(size, k => FwDevice.Erased())
  }

  /** The cell after a program pulse: the data bus value when `overwrite`,
      otherwise the old value with the bits that are 0 on the bus
      cleared. */
  function AfterPulse(cell: u16, data: u16, overwrite: bool): (r: u16)
    ensures overwrite ==> r == data
    ensures !overwrite ==> r & !cell == 0 && r & !data == 0
  {
    if overwrite then data else cell & data
  }

  /** Repeating an AND pulse with the same data changes nothing more. */
  lemma AfterPulseIdempotent(c: u16, data: u16)
    ensures AfterPulse(AfterPulse(c, data, false), data, false) == AfterPulse(c, data, false)
  {
  }

  /** The write of the program pulse counts towards an erase: the erased
      value at address 0. */
  predicate CountsAsErase(addr: Address, data: u16)
  {
    addr == 0 && (data == 0xFF || data == 0xFFFF)
  }

  class ChipEprom {
    var memory: seq<u16>
    var addrBus: Address
    var dataBus: u16
    var vdd: bool
    var vpp: bool
    var ce: bool
    var oe: bool
    var we: bool
    var numWriteFFAddrZero: nat
    var numWriteAnother: nat
    /** The address of the previous in-range program pulse; none before
        the first. */
    var lastAddr: Option<Address>

    /** Both counters are reset before they pass 5. */
    predicate Valid()
      reads this
    {
      numWriteFFAddrZero <= 5 && numWriteAnother <= 5
    }

    constructor ()
      ensures Valid() && memory == [] && addrBus == 0 && dataBus == 0
      ensures !vdd && !vpp && !ce && !oe && !we
      ensures numWriteFFAddrZero == 0 && numWriteAnother == 0 && lastAddr == None
    {
      memory, addrBus, dataBus := [], 0, 0;
      vdd, vpp, ce, oe, we := false, false, false, false, false;
      numWriteFFAddrZero, numWriteAnother, lastAddr := 0, 0, None;
    }

    /** Resizes the chip, erases it and clears both counters. */
    method SetSize(size: nat)
      modifies this`memory, this`numWriteFFAddrZero, this`numWriteAnother
      ensures Valid() && memory == Filled(size)
      ensures numWriteFFAddrZero == 0 && numWriteAnother == 0
    {
      if size != |memory| {
        if size < |memory| {
          memory := memory[..size];
        } else {
          memory := memory + seq(size - |memory|, k => 0);
        }
      }
      memory := Filled(size);
      numWriteFFAddrZero := 0;
      numWriteAnother := 0;
    }

    /** One program pulse: nothing beyond the chip; the data bus value at
        the address of the previous pulse (or at the first pulse), the
        old value ANDed with it elsewhere. */
    method Write()
      modifies this`memory, this`lastAddr
      ensures addrBus >= |old(memory)| ==> memory == old(memory) && lastAddr == old(lastAddr)
      ensures addrBus < |old(memory)| ==>
                var overwrite := old(lastAddr) == None || old(lastAddr) == Some(addrBus);
                memory == old(memory)[addrBus := AfterPulse(old(memory)[addrBus], dataBus, overwrite)]
                && lastAddr == Some(addrBus)
    {
      if addrBus >= |memory| {
        return;
      }
      if lastAddr == None {
        lastAddr := Some(addrBus);
      }
      if lastAddr == Some(addrBus) {
        memory := memory[addrBus := dataBus];
      } else {
        memory := memory[addrBus := memory[addrBus] & dataBus];
      }
      lastAddr := Some(addrBus);
    }

    /** The chip drives the data bus with the addressed cell, or all ones
        beyond its end. */
    method Read()
      modifies this`dataBus
      ensures dataBus == if addrBus < |memory| then memory[addrBus] else 0xFFFF
    {
      if addrBus >= |memory| {
        dataBus := 0xFFFF;
        return;
      }
      dataBus := memory[addrBus];
    }

    /** The level of PGM as the chip sees it: the polarity of the WE line
        depends on the chip size and, for some sizes, on ~OE. */
    function Pgm(): bool
      reads this`memory, this`we, this`oe
    {
      var size := |memory|;
      if size < 0x800 then (if oe then we else !we)
      else if size == 0x800 then !we
      else if size == 0x2000 || size == 0x4000 || size == 0x2_0000 || size == 0x4_0000 then we
      else if size == 0x20_0000 || size == 0x40_0000 then (if oe then false else we)
      else if oe then !we
      else we
    }

    predicate ReadMode()
      reads this`memory, this`we, this`oe, this`vdd, this`ce
    {
      vdd && ce && !Pgm() && oe
    }

    predicate WriteMode()
      reads this`memory, this`we, this`oe, this`vdd, this`vpp, this`ce
    {
      vdd && vpp && ce && Pgm() && !oe
    }

    /** Reacts to the pins: reads in read mode; in program mode writes
        and counts the pulse, erasing the chip at the sixth pulse in a row
        of the erased value at address 0, and resetting both counts at the
        sixth of any other pulse. */
    method EmuChip()
      requires Valid()
      modifies this`memory, this`lastAddr, this`dataBus, this`numWriteFFAddrZero, this`numWriteAnother
      ensures Valid()
      ensures old(ReadMode()) ==>
                dataBus == (if addrBus < |memory| then memory[addrBus] else 0xFFFF)
                && memory == old(memory) && numWriteFFAddrZero == old(numWriteFFAddrZero)
                && numWriteAnother == old(numWriteAnother) && lastAddr == old(lastAddr)
      ensures !old(ReadMode()) && !old(WriteMode()) ==>
                memory == old(memory) && dataBus == old(dataBus) && lastAddr == old(lastAddr)
                && numWriteFFAddrZero == old(numWriteFFAddrZero) && numWriteAnother == old(numWriteAnother)
      ensures old(WriteMode()) && CountsAsErase(addrBus, dataBus) ==>
                numWriteAnother == old(numWriteAnother)
                && (old(numWriteFFAddrZero) == 5 ==> memory == Filled(|old(memory)|) && numWriteFFAddrZero == 0)
                && (old(numWriteFFAddrZero) < 5 ==> numWriteFFAddrZero == old(numWriteFFAddrZero) + 1)
      ensures old(WriteMode()) && !CountsAsErase(addrBus, dataBus) ==>
                (old(numWriteAnother) == 5 ==> numWriteAnother == 0 && numWriteFFAddrZero == 0)
                && (old(numWriteAnother) < 5 ==>
                      numWriteAnother == old(numWriteAnother) + 1 && numWriteFFAddrZero == old(numWriteFFAddrZero))
      ensures old(WriteMode()) && !(CountsAsErase(addrBus, dataBus) && old(numWriteFFAddrZero) == 5) ==>
                (addrBus >= |old(memory)| ==> memory == old(memory))
                && (addrBus < |old(memory)| ==>
                      var overwrite := old(lastAddr) == None || old(lastAddr) == Some(addrBus);
                      memory == old(memory)[addrBus := AfterPulse(old(memory)[addrBus], dataBus, overwrite)])
      ensures |memory| == |old(memory)| && (!old(ReadMode()) ==> dataBus == old(dataBus))
    {
      if ReadMode() {
        Read();
      } else if WriteMode() {
        Write();
        if addrBus == 0 && (dataBus == 0xFF || dataBus == 0xFFFF) {
          numWriteFFAddrZero := numWriteFFAddrZero + 1;
        } else {
          numWriteAnother := numWriteAnother + 1;
        }
        if numWriteFFAddrZero > 5 {
          memory := Filled(|memory|);
          numWriteFFAddrZero := 0;
        }
        if numWriteAnother > 5 {
          numWriteAnother := 0;
          numWriteFFAddrZero := 0;
        }
      }
    }
  }
}
