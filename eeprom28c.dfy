/** The 28C/X28 EEPROM emulated by the chip library: a parallel chip whose
    write cycles either store the data bus in the memory area or, when
    they follow the protect or unprotect command sequence of the Atmel,
    ST and Xicor parts, advance that sequence instead. The variant the
    library loads also works around a programmer that sends wrong
    addresses after such a command: it moves those writes to an address
    of its own and forgets the command after 65 reads in a row. */
module Eeprom28C {
  import opened Bytes
  import opened BaseChip

  /** What the current command sequence is. */
  datatype Operation = Unknown | Protect | Unprotect

  /** One write cycle of a command sequence. */
  datatype ChipCommand = ChipCommand(addr: Word32, data: u16)

  const ProtectSize: nat := 3
  const UnprotectSize: nat := 6

  /** The command sequences for the 28C64 (V1) and the 28C256 (V2). */
  const ProtectV1: seq<ChipCommand> :=
    [ChipCommand(0x1555, 0xAA), ChipCommand(0x0AAA, 0x55), ChipCommand(0x1555, 0xA0)]
  const UnprotectV1: seq<ChipCommand> :=
    [ChipCommand(0x1555, 0xAA), ChipCommand(0x0AAA, 0x55), ChipCommand(0x1555, 0x80),
     ChipCommand(0x1555, 0xAA), ChipCommand(0x0AAA, 0x55), ChipCommand(0x1555, 0x20)]
  const ProtectV2: seq<ChipCommand> :=
    [ChipCommand(0x5555, 0xAA), ChipCommand(0x2AAA, 0x55), ChipCommand(0x5555, 0xA0)]
  const UnprotectV2: seq<ChipCommand> :=
    [ChipCommand(0x5555, 0xAA), ChipCommand(0x2AAA, 0x55), ChipCommand(0x5555, 0x80),
     ChipCommand(0x5555, 0xAA), ChipCommand(0x2AAA, 0x55), ChipCommand(0x5555, 0x20)]

  /** The step before any command write. */
  const Idle: int := -1
  /** The step once a sequence has completed. */
  const Done: int := 0xFF

  /** The step of the current command and what it is. */
  datatype CommandState = CommandState(step: int, op: Operation)

  const Initial := CommandState(Idle, Unknown)

  /** The states the machine can reach: idle, partway through (always
      read as an unprotect, since the protect sequence only differs in
      its last write) or done. A protect is never left pending. */
  predicate StateOk(s: CommandState)
  {
    (s.step == Idle || 0 <= s.step <= 4 || s.step == Done)
    && s.op != Protect
    && (s.step == Idle ==> s.op == Unknown)
    && (0 <= s.step <= 4 ==> s.op == Unprotect)
  }

  /** The index of the sequence entry the next write is compared with;
      a completed sequence starts over at 0. */
  function NextIndex(step: int): int
  {
    (if step == Done then -1 else step) + 1
  }

  /** The write matches entry `i` of `cmds`. An index beyond the sequence
      matches nothing. */
  predicate AtStep(cmds: seq<ChipCommand>, i: int, addr: Word32, data: u16)
  {
    0 <= i < |cmds| && cmds[i].addr == addr && cmds[i].data == data
  }

  predicate IsUnprotectAt(i: int, addr: Word32, data: u16)
  {
    AtStep(UnprotectV1, i, addr, data) || AtStep(UnprotectV2, i, addr, data)
  }

  predicate IsProtectAt(i: int, addr: Word32, data: u16)
  {
    AtStep(ProtectV1, i, addr, data) || AtStep(ProtectV2, i, addr, data)
  }

  /** The write is the last of a sequence: the sixth of an unprotect, or
      the third of a protect. */
  predicate Completes(i: int, addr: Word32, data: u16)
  {
    (i == UnprotectSize - 1 && IsUnprotectAt(i, addr, data))
    || (i == ProtectSize - 1 && !IsUnprotectAt(i, addr, data) && IsProtectAt(i, addr, data))
  }

  /** The outcome of `SpecialCommand`: the new state and whether the
      write was a command write, which is then not stored. */
  datatype Reaction = Reaction(state: CommandState, isCommand: bool)

  /** `SpecialCommand` for one write cycle of `data` at `addr`. A write
      matching the next entry of either sequence is a command write: it
      advances the step, and the last one of a sequence marks it done. A
      command write after completion keeps the machine done. Any other
      write leaves the state as it was. */
  function Special(s: CommandState, addr: Word32, data: u16): (r: Reaction)
    requires StateOk(s)
    ensures StateOk(r.state)
    ensures var i := NextIndex(s.step);
            r.isCommand <==> IsUnprotectAt(i, addr, data) || IsProtectAt(i, addr, data)
    ensures !r.isCommand ==> r.state == s
    ensures r.isCommand && s.step == Done ==> r.state == CommandState(Done, Unprotect)
    ensures r.isCommand && s.step != Done && Completes(NextIndex(s.step), addr, data) ==>
              r.state == CommandState(Done, Unknown)
    ensures r.isCommand && s.step != Done && !Completes(NextIndex(s.step), addr, data) ==>
              r.state == CommandState(s.step + 1, Unprotect)
  {
    var i := NextIndex(s.step);
    var isUnprotect := IsUnprotectAt(i, addr, data);
    var isProtect := IsProtectAt(i, addr, data);
    var isCommand := isUnprotect || isProtect;
    var op := if isUnprotect then Unprotect else if isProtect then Protect else s.op;
    var step := if isCommand && s.step != Done then s.step + 1 else s.step;
    var finished := (op == Unprotect && step == UnprotectSize - 1) || (op == Protect && step == ProtectSize - 1);
    Reaction(if finished then CommandState(Done, Unknown) else CommandState(step, op), isCommand)
  }

  /** The command state after a series of write cycles. */
  function Run(s: CommandState, writes: seq<ChipCommand>): (r: CommandState)
    requires StateOk(s)
    ensures StateOk(r)
    decreases |writes|
  {
    if writes == [] then s
    else Run(Special(s, writes[0].addr, writes[0].data).state, writes[1..])
  }

  lemma RunStep(s: CommandState, writes: seq<ChipCommand>)
    requires StateOk(s) && writes != []
    ensures Run(s, writes) == Run(Special(s, writes[0].addr, writes[0].data).state, writes[1..])
  {
  }

  /** Each unprotect sequence, written from the idle state, is taken as
      commands and completes. */
  lemma UnprotectCompletes()
    ensures Run(Initial, UnprotectV1) == CommandState(Done, Unknown)
    ensures Run(Initial, UnprotectV2) == CommandState(Done, Unknown)
  {
    RunSix(UnprotectV1);
    RunSix(UnprotectV2);
  }

  lemma RunSix(u: seq<ChipCommand>)
    requires u == UnprotectV1 || u == UnprotectV2
    ensures Run(Initial, u) == CommandState(Done, Unknown)
  {
    var s1 := CommandState(0, Unprotect);
    var s2 := CommandState(1, Unprotect);
    var s3 := CommandState(2, Unprotect);
    var s4 := CommandState(3, Unprotect);
    var s5 := CommandState(4, Unprotect);
    assert Special(Initial, u[0].addr, u[0].data).state == s1;
    assert Special(s1, u[1].addr, u[1].data).state == s2;
    assert Special(s2, u[2].addr, u[2].data).state == s3;
    assert Special(s3, u[3].addr, u[3].data).state == s4;
    assert Special(s4, u[4].addr, u[4].data).state == s5;
    assert Special(s5, u[5].addr, u[5].data).state == CommandState(Done, Unknown);
    RunStep(Initial, u);
    RunStep(s1, u[1..]);
    RunStep(s2, u[2..]);
    RunStep(s3, u[3..]);
    RunStep(s4, u[4..]);
    RunStep(s5, u[5..]);
    assert u[6..] == [];
  }

  /** Each protect sequence, written from the idle state, is taken as
      commands and completes after its third write. */
  lemma ProtectCompletes()
    ensures Run(Initial, ProtectV1) == CommandState(Done, Unknown)
    ensures Run(Initial, ProtectV2) == CommandState(Done, Unknown)
  {
    RunThree(ProtectV1);
    RunThree(ProtectV2);
  }

  lemma RunThree(p: seq<ChipCommand>)
    requires p == ProtectV1 || p == ProtectV2
    ensures Run(Initial, p) == CommandState(Done, Unknown)
  {
    var s1 := CommandState(0, Unprotect);
    var s2 := CommandState(1, Unprotect);
    assert Special(Initial, p[0].addr, p[0].data).state == s1;
    assert Special(s1, p[1].addr, p[1].data).state == s2;
    assert Special(s2, p[2].addr, p[2].data).state == CommandState(Done, Unknown);
    RunStep(Initial, p);
    RunStep(s1, p[1..]);
    RunStep(s2, p[2..]);
    assert p[3..] == [];
  }

  /** Once done, the machine stays done whatever is written. */
  lemma {:induction false} DoneStaysDone(s: CommandState, writes: seq<ChipCommand>)
    requires StateOk(s) && s.step == Done
    ensures Run(s, writes).step == Done
    decreases |writes|
  {
    if writes != [] {
      DoneStaysDone(Special(s, writes[0].addr, writes[0].data).state, writes[1..]);
    }
  }

  /** The pins, buses, memory and command fields of the chip object. */
  datatype Chip = Chip(memory: seq<u16>, addrBus: Word32, dataBus: u16,
                       vdd: bool, vpp: bool, oe: bool, ce: bool, we: bool,
                       cmd: CommandState, address: Word32, readCount: nat)

  predicate ChipOk(c: Chip)
  {
    |c.memory| < Limit32 && StateOk(c.cmd)
  }

  /** Read cycle: VDD, CE and OE high, WE low. */
  predicate ReadMode(c: Chip)
  {
    c.vdd && c.ce && !c.we && c.oe
  }

  /** Write cycle: VDD, CE and WE high. */
  predicate WriteMode(c: Chip)
  {
    c.vdd && c.ce && c.we
  }

  /** Power or chip enable off. */
  predicate Off(c: Chip)
  {
    !c.vdd || !c.ce
  }

  /** The same pins and size. */
  predicate SamePins(c: Chip, d: Chip)
  {
    c.vdd == d.vdd && c.vpp == d.vpp && c.oe == d.oe && c.ce == d.ce && c.we == d.we
    && |c.memory| == |d.memory|
  }

  /** A write cycle handed to `SpecialCommand`, then to `Write` unless it
      was a command write. */
  function WriteCycle(c: Chip): (r: Chip)
    requires ChipOk(c)
    ensures ChipOk(r) && SamePins(c, r) && r.addrBus == c.addrBus && r.dataBus == c.dataBus
    ensures var s := Special(c.cmd, c.addrBus, c.dataBus);
            r.cmd == s.state
            && (s.isCommand ==> r.memory == c.memory)
            && (!s.isCommand ==> r.memory == Stored(c.memory, c.addrBus, c.dataBus))
    ensures r.address == c.address && r.readCount == c.readCount
  {
    var s := Special(c.cmd, c.addrBus, c.dataBus);
    var wrote := if s.isCommand then c.memory else Stored(c.memory, c.addrBus, c.dataBus);
    c.(cmd := s.state, memory := wrote)
  }

  /** `ChipEEPROM28C::EmuChip`: a read cycle drives the data bus, a write
      cycle goes through the command machine, and power or chip enable
      off forgets the command. */
  function EmuPlain(c: Chip): (r: Chip)
    requires ChipOk(c)
    ensures ChipOk(r) && SamePins(c, r)
    ensures ReadMode(c) ==> r == c.(dataBus := CellAt(c.memory, c.addrBus))
    ensures WriteMode(c) ==> r == WriteCycle(c)
    ensures Off(c) ==> r == c.(cmd := Initial)
    ensures !ReadMode(c) && !WriteMode(c) && !Off(c) ==> r == c
  {
    if ReadMode(c) then c.(dataBus := CellAt(c.memory, c.addrBus))
    else if WriteMode(c) then WriteCycle(c)
    else if Off(c) then (if c.cmd.step != Idle then c.(cmd := Initial) else c)
    else c
  }

  /** A write right after a completed sequence to the first address of a
      command is moved to the workaround's own address. */
  predicate Redirected(c: Chip)
  {
    (c.addrBus == ProtectV1[0].addr || c.addrBus == ProtectV2[0].addr) && c.cmd.step == Done
  }

  /** The number of reads in a row after which the workaround forgets the
      command. */
  const ReadsToForget: nat := 65

  /** `ChipEEPROM28CWorkaround::EmuChip`: as the plain chip, but reads are
      counted and the 65th in a row forgets the command; a redirected
      write goes to the workaround's address, which then moves on by one;
      any write clears the read count; and power or chip enable off also
      clears the workaround's address. */
  function EmuWorkaround(c: Chip): (r: Chip)
    requires ChipOk(c)
    ensures ChipOk(r) && SamePins(c, r)
    ensures ReadMode(c) ==>
              r.memory == c.memory && r.dataBus == CellAt(c.memory, c.addrBus) && r.addrBus == c.addrBus
              && r.address == c.address && r.readCount == c.readCount + 1
              && r.cmd == (if c.readCount + 1 == ReadsToForget then Initial else c.cmd)
    ensures WriteMode(c) && Redirected(c) ==>
              r == WriteCycle(c.(addrBus := c.address)).(address := (c.address + 1) % Limit32, readCount := 0)
    ensures WriteMode(c) && !Redirected(c) ==> r == WriteCycle(c).(readCount := 0)
    ensures Off(c) ==> r.cmd == Initial && r.memory == c.memory && r.dataBus == c.dataBus
    ensures Off(c) && c.cmd.step != Idle ==> r.address == 0
  {
    if ReadMode(c) then CountedRead(c)
    else if WriteMode(c) then FixedWrite(c)
    else if Off(c) then
      (if c.cmd.step != Idle then c.(cmd := Initial, address := 0) else c)
    else c
  }

  /** A read cycle of the workaround chip. */
  function CountedRead(c: Chip): (r: Chip)
    requires ChipOk(c)
    ensures ChipOk(r) && SamePins(c, r)
  {
    var read := c.(dataBus := CellAt(c.memory, c.addrBus), readCount := c.readCount + 1);
    if read.readCount == ReadsToForget then read.(cmd := Initial) else read
  }

  /** A write cycle of the workaround chip. */
  function FixedWrite(c: Chip): (r: Chip)
    requires ChipOk(c)
    ensures ChipOk(r) && SamePins(c, r)
  {
    var redirect := Redirected(c);
    var fixed := if redirect then c.(addrBus := c.address) else c;
    var written := WriteCycle(fixed);
    var moved := if redirect then written.(address := (written.address + 1) % Limit32) else written;
    moved.(readCount := 0)
  }

  /** The chip's reaction to a change of a pin or bus: `EmuChip` of the
      variant in use. */
  function Emu(c: Chip, workaround: bool): (r: Chip)
    requires ChipOk(c)
    ensures ChipOk(r) && SamePins(c, r)
  {
    if workaround then EmuWorkaround(c) else EmuPlain(c)
  }

  /** Either variant forgets the command when power or chip enable drops,
      and leaves memory and data bus alone. */
  lemma OffResets(c: Chip, workaround: bool)
    requires ChipOk(c) && Off(c)
    ensures Emu(c, workaround).cmd == Initial
    ensures Emu(c, workaround).memory == c.memory && Emu(c, workaround).dataBus == c.dataBus
  {
  }

  /** Either variant stores a write cycle that is not a command write and
      is not redirected. */
  lemma PlainWriteStored(c: Chip, workaround: bool)
    requires ChipOk(c) && WriteMode(c) && !Redirected(c)
    requires !Special(c.cmd, c.addrBus, c.dataBus).isCommand
    ensures Emu(c, workaround).memory == Stored(c.memory, c.addrBus, c.dataBus)
    ensures Emu(c, workaround).cmd == c.cmd
  {
  }

  /** After a completed sequence, a write at the first command address
      that is not a command itself is stored at the workaround's address,
      which then moves on by one. */
  lemma RedirectedWriteStored(c: Chip)
    requires ChipOk(c) && WriteMode(c) && Redirected(c)
    requires !Special(c.cmd, c.address, c.dataBus).isCommand
    ensures EmuWorkaround(c).memory == Stored(c.memory, c.address, c.dataBus)
    ensures EmuWorkaround(c).address == (c.address + 1) % Limit32
    ensures EmuWorkaround(c).cmd.step == Done
  {
  }

  /** `n` read cycles of the workaround chip in a row. */
  function Reads(c: Chip, n: nat): (r: Chip)
    requires ChipOk(c) && ReadMode(c)
    ensures ChipOk(r) && ReadMode(r)
    decreases n
  {
    if n == 0 then c else Reads(EmuWorkaround(c), n - 1)
  }

  /** Reads leave memory alone and count up; the command is forgotten
      once the count reaches 65 and stays forgotten. */
  lemma {:induction false} ReadsForget(c: Chip, n: nat)
    requires ChipOk(c) && ReadMode(c)
    ensures Reads(c, n).memory == c.memory && Reads(c, n).readCount == c.readCount + n
    ensures c.readCount < ReadsToForget <= c.readCount + n ==> Reads(c, n).cmd == Initial
    ensures c.readCount + n < ReadsToForget ==> Reads(c, n).cmd == c.cmd
    ensures c.readCount >= ReadsToForget ==> Reads(c, n).cmd == c.cmd
    decreases n
  {
    if n > 0 {
      ReadsForget(EmuWorkaround(c), n - 1);
    }
  }

  /** 65 reads after a write forget the command. */
  lemma ReadsAfterWrite(c: Chip)
    requires ChipOk(c) && ReadMode(c) && c.readCount == 0
    ensures Reads(c, ReadsToForget).cmd == Initial
  {
    ReadsForget(c, ReadsToForget);
  }

  /** The chip object: the fields of `BaseChip`, `BaseParChip`,
      `ChipEEPROM28C` and, when `workaround` is set, those of
      `ChipEEPROM28CWorkaround`, whose `EmuChip` then replaces the plain
      one. */
  class ChipEeprom28C {
    const workaround: bool
    var memory: seq<u16>
    var addrBus: Word32
    var dataBus: u16
    var vdd: bool
    var vpp: bool
    var oe: bool
    var ce: bool
    var we: bool
    var commandStep: int
    var commandOp: Operation
    var address: Word32
    var readCount: nat

    function State(): CommandState
      reads this`commandStep, this`commandOp
    {
      CommandState(commandStep, commandOp)
    }

    function Value(): Chip
      reads this
    {
      Chip(memory, addrBus, dataBus, vdd, vpp, oe, ce, we, State(), address, readCount)
    }

    predicate Valid()
      reads this
    {
      ChipOk(Value())
    }

    /** All pins low, buses 0, no memory and no command. */
    constructor (workaround: bool)
      ensures Valid() && this.workaround == workaround
      ensures Value() == Chip([], 0, 0, false, false, false, false, false, Initial, 0, 0)
    {
      this.workaround := workaround;
      memory, addrBus, dataBus := [], 0, 0;
      vdd, vpp, oe, ce, we := false, false, false, false, false;
      commandStep, commandOp := Idle, Unknown;
      address, readCount := 0, 0;
    }

    /** `BaseChip::SetSize`: resizes the memory area, keeping the first
        cells and adding zeros. */
    method Resize(size: Word32)
      modifies this`memory
      ensures memory == Resized(old(memory), size)
    {
      if size == |memory| {
        return;
      }
      memory := Resized(memory, size);
    }

    /** `ChipEEPROM28C::SetSize`: a new size resizes and fills the memory
        with 0xFF; the current size changes nothing. */
    method SetSize(size: Word32)
      requires Valid()
      modifies this`memory
      ensures Valid()
      ensures size == |old(memory)| ==> memory == old(memory)
      ensures size != |old(memory)| ==> memory == Filled(size, 0xFF)
    {
      if size == |memory| {
        return;
      }
      Resize(size);
      FillData(0xFF);
    }

    /** `FillData`: every cell becomes `data`. */
    method FillData(data: u16)
      modifies this`memory
      ensures memory == Filled(|old(memory)|, data)
    {
      memory := Filled(|memory|, data);
    }

    /** `BaseChip::Read`. */
    method Read()
      modifies this`dataBus
      ensures dataBus == CellAt(memory, addrBus)
    {
      if addrBus >= |memory| {
        dataBus := 0xFFFF;
        return;
      }
      var data := memory[addrBus];
      if dataBus == data {
        return;
      }
      dataBus := data;
    }

    /** `BaseChip::Write`. */
    method Write()
      modifies this`memory
      ensures memory == Stored(old(memory), addrBus, dataBus)
    {
      if addrBus >= |memory| {
        return;
      }
      memory := memory[addrBus := dataBus];
    }

    /** `ChipEEPROM28C::SpecialCommand` on the current buses. */
    method SpecialCommand() returns (isCommand: bool)
      requires Valid()
      modifies this`commandStep, this`commandOp
      ensures Reaction(State(), isCommand) == Special(old(State()), addrBus, dataBus)
    {
      var i := NextIndex(commandStep);
      var isUnprotect := IsUnprotectAt(i, addrBus, dataBus);
      var isProtect := IsProtectAt(i, addrBus, dataBus);
      isCommand := false;
      if isUnprotect {
        commandOp := Unprotect;
        isCommand := true;
      } else if isProtect {
        commandOp := Protect;
        isCommand := true;
      }
      if isCommand && commandStep != Done {
        commandStep := commandStep + 1;
      }
      if commandOp == Unprotect && commandStep == UnprotectSize - 1 {
        commandStep, commandOp := Done, Unknown;
      } else if commandOp == Protect && commandStep == ProtectSize - 1 {
        commandStep, commandOp := Done, Unknown;
      }
    }

    /** A write cycle: the command machine, then `Write` unless it was a
        command write. */
    method WriteCycleOnBuses()
      requires Valid()
      modifies this
      ensures Valid() && Value() == WriteCycle(old(Value()))
    {
      var isCommand := SpecialCommand();
      if !isCommand {
        Write();
      }
    }

    /** Forgets the command in progress. */
    method ResetCommand()
      modifies this`commandStep, this`commandOp
      ensures State() == Initial
    {
      commandStep, commandOp := Idle, Unknown;
    }

    /** `EmuChip` of the plain chip. */
    method EmuChipPlain()
      requires Valid()
      modifies this
      ensures Valid() && Value() == EmuPlain(old(Value()))
    {
      if vdd && ce && !we && oe {
        Read();
      } else if vdd && ce && we {
        WriteCycleOnBuses();
      } else if !vdd || !ce {
        if commandStep != Idle {
          ResetCommand();
        }
      }
    }

    /** `EmuChip` of the workaround chip. */
    method EmuChipWorkaround()
      requires Valid()
      modifies this
      ensures Valid() && Value() == EmuWorkaround(old(Value()))
    {
      if vdd && ce && !we && oe {
        ReadCounted();
      } else if vdd && ce && we {
        WriteFixed();
      } else if !vdd || !ce {
        if commandStep != Idle {
          ResetCommand();
          address := 0;
        }
      }
    }

    /** The read branch of the workaround's `EmuChip`. */
    method ReadCounted()
      requires Valid()
      modifies this
      ensures Valid() && Value() == CountedRead(old(Value()))
    {
      Read();
      readCount := readCount + 1;
      if readCount == ReadsToForget {
        ResetCommand();
      }
    }

    /** The write branch of the workaround's `EmuChip`. */
    method WriteFixed()
      requires Valid()
      modifies this
      ensures Valid() && Value() == FixedWrite(old(Value()))
    {
      var isCommand := (addrBus == ProtectV1[0].addr || addrBus == ProtectV2[0].addr) && commandStep == Done;
      assert isCommand == Redirected(Value());
      if isCommand {
        addrBus := address;
        WriteCycleOnBuses();
        address := (address + 1) % Limit32;
      } else {
        WriteCycleOnBuses();
      }
      readCount := 0;
    }

    /** `EmuChip` of the variant in use. */
    method EmuChip()
      requires Valid()
      modifies this
      ensures Valid() && Value() == Emu(old(Value()), workaround)
    {
      if workaround {
        EmuChipWorkaround();
      } else {
        EmuChipPlain();
      }
    }

    /** `SetVDD`: a new level is taken and the chip reacts; the current
        level changes nothing. */
    method SetVdd(state: bool)
      requires Valid()
      modifies this
      ensures Valid()
      ensures state == old(vdd) ==> Value() == old(Value())
      ensures state != old(vdd) ==> Value() == Emu(old(Value()).(vdd := state), workaround)
    {
      if state == vdd {
        return;
      }
      vdd := state;
      EmuChip();
    }

    /** `SetVPP`. */
    method SetVpp(state: bool)
      requires Valid()
      modifies this
      ensures Valid()
      ensures state == old(vpp) ==> Value() == old(Value())
      ensures state != old(vpp) ==> Value() == Emu(old(Value()).(vpp := state), workaround)
    {
      if state == vpp {
        return;
      }
      vpp := state;
      EmuChip();
    }

    /** `SetOE`. */
    method SetOe(state: bool)
      requires Valid()
      modifies this
      ensures Valid()
      ensures state == old(oe) ==> Value() == old(Value())
      ensures state != old(oe) ==> Value() == Emu(old(Value()).(oe := state), workaround)
    {
      if state == oe {
        return;
      }
      oe := state;
      EmuChip();
    }

    /** `SetCE`. */
    method SetCe(state: bool)
      requires Valid()
      modifies this
      ensures Valid()
      ensures state == old(ce) ==> Value() == old(Value())
      ensures state != old(ce) ==> Value() == Emu(old(Value()).(ce := state), workaround)
    {
      if state == ce {
        return;
      }
      ce := state;
      EmuChip();
    }

    /** `SetWE`. */
    method SetWe(state: bool)
      requires Valid()
      modifies this
      ensures Valid()
      ensures state == old(we) ==> Value() == old(Value())
      ensures state != old(we) ==> Value() == Emu(old(Value()).(we := state), workaround)
    {
      if state == we {
        return;
      }
      we := state;
      EmuChip();
    }

    /** `SetAddrBus`: the address fitted into the memory area; the chip
        does not react. */
    method SetAddrBus(addr: Word32)
      requires Valid()
      modifies this`addrBus
      ensures addrBus == AddrMask(addr, |memory|)
    {
      var fitted := AddrMask(addr, |memory|);
      if addrBus == fitted {
        return;
      }
      addrBus := fitted;
    }

    /** `SetDataBus`: a new value is taken and the chip reacts; the
        current value changes nothing. */
    method SetDataBus(data: u16)
      requires Valid()
      modifies this
      ensures Valid()
      ensures data == old(dataBus) ==> Value() == old(Value())
      ensures data != old(dataBus) ==> Value() == Emu(old(Value()).(dataBus := data), workaround)
    {
      if dataBus == data {
        return;
      }
      dataBus := data;
      EmuChip();
    }

    /** `GetDataBus`: the chip reacts, then its data bus is returned. */
    method GetDataBus() returns (data: u16)
      requires Valid()
      modifies this
      ensures Valid() && Value() == Emu(old(Value()), workaround) && data == dataBus
    {
      EmuChip();
      data := dataBus;
    }
  }
}
