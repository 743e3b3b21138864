/** The firmware's command loop: it reads an opcode byte from the serial
    port, reads the parameter bytes the opcode table declares, validates
    the frame and dispatches it to the regulator, bus and device handlers,
    each of which sends its reply back. Serial input (the opcode byte, the
    parameter bytes) and the levels sampled on the data bus are inputs;
    replies are appended to `replies`. */
module Runner {
  import opened Bytes
  import opened OpCodes
  import Bus
  import HC165

  /** The settings opcode of the runner. The firmware table has no entry
      of that name; its code, taken from the host's table, is the
      firmware's `DeviceConfigure` code, whose entry declares two
      parameter bytes. */
  const SetFlags := 0x83

  datatype Settings = Settings(twp: u32, twc: u32, skipFF: bool, progWithVpp: bool,
                               vppOePin: bool, pgmCePin: bool, pgmPositive: bool)

  const InitialSettings := Settings(0, 0, false, false, false, false, false)

  /** A voltage a regulator command sets: the one the frame carries, kept
      as the frame's parameter bytes since floating point is not part of
      this model, or the regulator's initial voltage (5 V for VDD, 12 V
      for VPP). */
  datatype Volts = Given(raw: seq<byte>) | Initial

  /** Where a regulator's output is switched: VDD onto the VPP line, VPP
      onto A9, A18, CE, OE or WE. */
  datatype Route = ToVpp | ToA9 | ToA18 | ToCE | ToOE | ToWE

  /** A call the command handlers make on the VDD or the VPP regulator. */
  datatype RegulatorCall =
    | TurnOn
    | TurnOff
    | SetV(v: Volts)
    | InitCalibration
    | SaveCalibration(v: Volts)
    | Switch(route: Route, on: bool)

  /** The VDD calls `deviceRead_` makes around the read cycle when OE
      doubles as the VPP pin: VDD off the VPP line, then back on. */
  function ReadVddCalls(s: Settings): seq<RegulatorCall>
  {
    if s.vppOePin then [Switch(ToVpp, false), Switch(ToVpp, true)] else []
  }

  /** The VDD calls `deviceWrite_` makes around the write cycle when the
      chip is programmed with VPP. */
  function WriteVddCalls(s: Settings): seq<RegulatorCall>
  {
    if s.progWithVpp then [Switch(ToVpp, false), Switch(ToVpp, true)] else []
  }

  /** The VPP calls `deviceWrite_` makes around the write cycle: VPP on,
      then off. */
  function WriteVppCalls(s: Settings): seq<RegulatorCall>
  {
    if s.progWithVpp then [TurnOn, TurnOff] else []
  }

  /** A device read or write hands the regulators back as it found them:
      whatever it switches is switched back by its last call. */
  lemma DeviceCallsRestore(s: Settings)
    ensures ReadVddCalls(s) != [] ==> ReadVddCalls(s)[0] == Switch(ToVpp, false)
                                      && ReadVddCalls(s)[|ReadVddCalls(s)| - 1] == Switch(ToVpp, true)
    ensures WriteVddCalls(s) != [] ==> WriteVddCalls(s)[0] == Switch(ToVpp, false)
                                       && WriteVddCalls(s)[|WriteVddCalls(s)| - 1] == Switch(ToVpp, true)
    ensures WriteVppCalls(s) != [] ==> WriteVppCalls(s)[0] == TurnOn
                                       && WriteVppCalls(s)[|WriteVppCalls(s)| - 1] == TurnOff
    ensures WriteVddCalls(s) == [] <==> WriteVppCalls(s) == []
  {
  }

  // ---- framing ----

  /** `readByte_`: the `len` bytes the serial port delivered, or nothing
      when `len` is 0 or the port delivered fewer bytes before the timeout. */
  function ReadBytes(len: nat, got: seq<byte>): (r: seq<byte>)
    ensures r != [] <==> len > 0 && |got| == len
    ensures r != [] ==> r == got && |r| == len
  {
    if len > 0 && |got| == len then got else []
  }

  /** The command `loop` assembles from an opcode byte `c` and the bytes
      `got` the port delivers after it. */
  function Frame(c: byte, got: seq<byte>): (r: seq<byte>)
    ensures |r| >= 1 && r[0] == c
    ensures |r| > 1 <==> Table(c as int).Some? && Table(c as int).value.params > 0
                         && |got| == Table(c as int).value.params
    ensures |r| > 1 ==> r[1..] == got
  {
    var code := Table(c as int);
    if code.Some? && code.value.params > 0 then [c] + ReadBytes(code.value.params, got) else [c]
  }

  /** `runCommand_`'s check: a known opcode with all its parameter bytes. */
  predicate Accepted(cmd: seq<byte>)
    requires |cmd| >= 1
  {
    Table(cmd[0] as int).Some? && |cmd| >= Table(cmd[0] as int).value.params + 1
  }

  /** A frame is accepted iff its opcode is known and, when it takes
      parameters, the port delivered all of them. */
  lemma FrameAccepted(c: byte, got: seq<byte>)
    ensures Accepted(Frame(c, got)) <==>
      Table(c as int).Some? && (Table(c as int).value.params == 0 || |got| == Table(c as int).value.params)
  {
    var code := Table(c as int);
    if code.Some? && code.value.params > 0 && |got| != code.value.params {
      assert Frame(c, got) == [c];
    }
  }

  // ---- replies ----

  function Ack(ok: bool): (r: seq<byte>)
    ensures IsOk(Data(r), |r|) == ok && |r| == 1
  {
    [if ok then ResponseOk else ResponseNok]
  }

  /** A 3-byte Ok reply carrying a word, MSB first. */
  function WordReply(w: u16): (r: seq<byte>)
    ensures |r| == 3 && IsOk(Data(r), 3)
    ensures GetValueAsWord(Data(r), 3) == w
  {
    WordRoundTrip([ResponseOk, 0, 0], 3, w);
    PutWord([ResponseOk, 0, 0], 3, w)
  }

  /** A 2-byte Ok reply carrying a byte. */
  function ByteReply(b: byte): (r: seq<byte>)
    ensures |r| == 2 && IsOk(Data(r), 2)
    ensures GetValueAsByte(Data(r), 2) == b
  {
    PutByte([ResponseOk, 0], 2, b)
  }

  // ---- opcode groups ----

  predicate IsAnalogRead(op: int)
  {
    op == VddGetV || op == VddGetDuty || op == VddGetCal
  }

  predicate IsVddOp(op: int)
  {
    op == VddCtrl || op == VddSetV || IsAnalogRead(op) || op == VddInitCal
    || op == VddSaveCal || op == VddOnVpp
  }

  predicate IsVppAnalogRead(op: int)
  {
    op == VppGetV || op == VppGetDuty || op == VppGetCal
  }

  predicate IsVppOp(op: int)
  {
    op == VppCtrl || op == VppSetV || IsVppAnalogRead(op) || op == VppInitCal
    || op == VppSaveCal || op == VppOnA9 || op == VppOnA18 || op == VppOnCE
    || op == VppOnOE || op == VppOnWE
  }

  predicate IsCtrlOp(op: int)
  {
    op == BusCE || op == BusOE || op == BusWE
  }

  predicate IsDataOp(op: int)
  {
    op == BusDataClr || op == BusDataSet || op == BusDataGet
  }

  predicate IsAddrOp(op: int)
  {
    op == BusAddrClr || op == BusAddrInc || op == BusAddrSet || op == BusAddrSetB || op == BusAddrSetW
  }

  predicate IsSettingsOp(op: int)
  {
    op == DeviceSetTwp || op == DeviceSetTwc || op == SetFlags
  }

  /** The opcodes some handler replies to; every other known opcode is
      accepted and gets no reply. */
  predicate Handled(op: int)
  {
    op == Nop || IsVddOp(op) || IsVppOp(op) || IsCtrlOp(op) || IsDataOp(op) || IsAddrOp(op)
    || IsSettingsOp(op) || op == DeviceRead || op == DeviceWrite || op == DeviceVerify
  }

  /** Apart from `Nop`, a handled opcode belongs to exactly one of the two
      halves of the dispatch. */
  lemma ReplyCount(op: int)
    requires op != Nop
    ensures (if Handled(op) then 1 else 0) ==
            (if IsVddOp(op) || IsVppOp(op) || IsCtrlOp(op) || IsDataOp(op) || IsAddrOp(op) then 1 else 0)
            + (if IsSettingsOp(op) || op == DeviceRead || op == DeviceWrite || op == DeviceVerify then 1 else 0)
  {
  }

  /** The five handlers of the first half of the dispatch take disjoint
      sets of opcodes. */
  lemma PowerBusCount(op: int)
    ensures (if IsVddOp(op) || IsVppOp(op) || IsCtrlOp(op) || IsDataOp(op) || IsAddrOp(op) then 1 else 0) ==
            (if IsVddOp(op) then 1 else 0) + (if IsVppOp(op) then 1 else 0) + (if IsCtrlOp(op) then 1 else 0)
            + (if IsDataOp(op) then 1 else 0) + (if IsAddrOp(op) then 1 else 0)
  {
  }

  // ---- device settings ----

  /** The flags byte the settings command carries: bit 0 skip writing
      0xFF, bit 1 program with VPP on, bit 2 VPP on the ~OE pin, bit 3
      ~PGM on the ~CE pin, bit 4 positive PGM pulse. */
  function FlagsByte(s: Settings): (r: byte)
  {
    (if s.skipFF then 0x01 else 0) | (if s.progWithVpp then 0x02 else 0)
    | (if s.vppOePin then 0x04 else 0) | (if s.pgmCePin then 0x08 else 0)
    | (if s.pgmPositive then 0x10 else 0)
  }

  /** The flag decoding the settings command evidently intends: flag k is
      bit k of the byte; the timings are kept. */
  function DecodeFlags(s: Settings, b: byte): (r: Settings)
  {
    s.(skipFF := HasBit(b, 0), progWithVpp := HasBit(b, 1), vppOePin := HasBit(b, 2),
       pgmCePin := HasBit(b, 3), pgmPositive := HasBit(b, 4))
  }

  /** The decoding as written: `dw & 0x02 != 0` parses as
      `dw & (0x02 != 0)`, that is `dw & 1`, so every flag is bit 0. */
  function DecodeFlagsAsWritten(s: Settings, b: byte): (r: Settings)
  {
    var one: byte := if 0x01 != 0 then 1 else 0;
    var two: byte := if 0x02 != 0 then 1 else 0;
    var four: byte := if 0x04 != 0 then 1 else 0;
    var eight: byte := if 0x08 != 0 then 1 else 0;
    var sixteen: byte := if 0x10 != 0 then 1 else 0;
    s.(skipFF := b & one != 0, progWithVpp := b & two != 0, vppOePin := b & four != 0,
       pgmCePin := b & eight != 0, pgmPositive := b & sixteen != 0)
  }

  /** Decoding the byte the host encodes gives back the host's flags and
      keeps the timings. */
  lemma DecodeFlagsRoundTrip(s: Settings, t: Settings)
    ensures DecodeFlags(s, FlagsByte(t)) == s.(skipFF := t.skipFF, progWithVpp := t.progWithVpp,
      vppOePin := t.vppOePin, pgmCePin := t.pgmCePin, pgmPositive := t.pgmPositive)
  {
    var b := FlagsByte(t);
    assert HasBit(b, 0) == t.skipFF && HasBit(b, 1) == t.progWithVpp;
    assert HasBit(b, 2) == t.vppOePin && HasBit(b, 3) == t.pgmCePin && HasBit(b, 4) == t.pgmPositive;
  }

  /** As written, all five flags equal bit 0 of the byte. */
  lemma DecodeFlagsAsWrittenUsesBit0(s: Settings, b: byte)
    ensures var r := DecodeFlagsAsWritten(s, b);
      r.skipFF == HasBit(b, 0) && r.progWithVpp == HasBit(b, 0) && r.vppOePin == HasBit(b, 0)
      && r.pgmCePin == HasBit(b, 0) && r.pgmPositive == HasBit(b, 0)
  {
  }

  /** The byte 0x02 asks for programming with VPP on; as written the
      firmware turns every flag off instead. */
  lemma DecodeFlagsAsWrittenCounterexample(s: Settings)
    ensures DecodeFlags(s, 0x02).progWithVpp
    ensures !DecodeFlagsAsWritten(s, 0x02).progWithVpp
  {
  }

  /** The settings after an accepted settings command, with the flags
      decoded as the code is written. */
  function Settled(s: Settings, op: int, cmd: seq<byte>): (r: Settings)
  {
    if op == DeviceSetTwp then s.(twp := GetValueAsDWord(Data(cmd), |cmd|))
    else if op == DeviceSetTwc then s.(twc := GetValueAsDWord(Data(cmd), |cmd|))
    else if op == SetFlags then DecodeFlagsAsWritten(s, GetValueAsByte(Data(cmd), |cmd|))
    else s
  }

  /** After a settings command every flag is the same: bit 0 of the byte
      sent, so the host's byte 0x01 turns all five on and 0x02 all off. */
  lemma SettledFlagsAllBit0(s: Settings, cmd: seq<byte>)
    ensures var r := Settled(s, SetFlags, cmd);
            var bit := HasBit(GetValueAsByte(Data(cmd), |cmd|), 0);
            r.twp == s.twp && r.twc == s.twc
            && r.skipFF == bit && r.progWithVpp == bit && r.vppOePin == bit
            && r.pgmCePin == bit && r.pgmPositive == bit
  {
    DecodeFlagsAsWrittenUsesBit0(s, GetValueAsByte(Data(cmd), |cmd|));
  }

  // ---- write/verify rules ----

  /** Whether the value to write is the erased value: 0xFFFF for a word,
      0xFF for a byte (the evident intent). */
  function IsEmptyData(wr: u16, is16: bool): bool
  {
    if is16 then wr == 0xFFFF else wr & 0xFF == 0xFF
  }

  /** The 8-bit test as written: `wr & 0xFF == 0xFF` parses as
      `wr & (0xFF == 0xFF)`, that is `wr & 1`. */
  function IsEmptyDataAsWritten(wr: u16, is16: bool): bool
  {
    var one: u16 := if 0xFF == 0xFF then 1 else 0;
    if is16 then wr == 0xFFFF else wr & one != 0
  }

  /** As written, any odd byte counts as empty and is skipped with
      `skipFF`, and 0xFE does not. */
  lemma IsEmptyDataAsWrittenCounterexample()
    ensures IsEmptyDataAsWritten(0x01, false) && !IsEmptyData(0x01, false)
    ensures !IsEmptyDataAsWritten(0xFE, false) && !IsEmptyData(0xFE, false)
    ensures IsEmptyDataAsWritten(0xFF, false) && IsEmptyData(0xFF, false)
  {
  }

  /** As written, a byte parameter counts as empty exactly when it is
      odd. */
  lemma IsEmptyDataAsWrittenOdd(b: byte)
    ensures IsEmptyDataAsWritten(b as u16, false) <==> b % 2 == 1
  {
    LowBitOdd(b);
  }

  lemma LowBitOdd(b: byte)
    ensures (b as u16) & 1 != 0 <==> b % 2 == 1
  {
  }

  /** For a byte parameter the intended test holds for 0xFF only. */
  lemma IsEmptyDataByte(b: byte)
    ensures IsEmptyData(b as u16, false) <==> b == 0xFF
  {
  }

  /** The value compared on verify: the low byte in 8-bit mode. */
  function Masked(v: u16, is16: bool): u16
  {
    if is16 then v else v & 0xFF
  }

  /** What the data bus reads from sampled levels (0 for an incomplete
      configuration): a word from 16 levels, a byte from the first 8. */
  function BusRead(c: Bus.DataBusConfig, levels: seq<bool>, is16: bool): u16
    requires |levels| == 16
  {
    if !Bus.DataValid(c) then 0
    else if is16 then
      var d := HC165.Unpacked(levels, 2, true);
      HC165.WordOf(d[0], d[1])
    else HC165.Unpacked(levels[..8], 1, true)[0] as u16
  }

  /** What running the frame `cmd` does to the settings and the replies:
      a refused frame is answered with a failure and changes nothing
      else; an accepted one updates the settings as its opcode says and
      is answered once when its handler replies, with a bare success for
      `Nop`. */
  predicate Answered(s0: Settings, r0: seq<seq<byte>>, s: Settings, r: seq<seq<byte>>, cmd: seq<byte>)
    requires |cmd| >= 1
  {
    (!Accepted(cmd) ==> r == r0 + [Ack(false)] && s == s0)
    && (Accepted(cmd) && cmd[0] as int == Nop ==> r == r0 + [Ack(true)])
    && (Accepted(cmd) ==> s == Settled(s0, cmd[0] as int, cmd)
                          && |r| == |r0| + (if Handled(cmd[0] as int) then 1 else 0))
  }

  /** The engine of the firmware: the command being run, the device
      settings, the buses and the replies sent. */
  class Runner {
    var command: seq<byte>
    var settings: Settings
    var replies: seq<seq<byte>>
    /** The calls made on the VDD and on the VPP regulator, in order. */
    var vddCalls: seq<RegulatorCall>
    var vppCalls: seq<RegulatorCall>
    const ctrl: Bus.CtrlBus
    const data: Bus.DataBus
    const addr: Bus.AddrBus

    predicate Valid()
      reads this, data, data.out, data.input, addr, addr.out
    {
      data.out != addr.out && data.Wired() && addr.Wired()
    }

    constructor ()
      ensures Valid() && command == [] && settings == InitialSettings && replies == []
      ensures vddCalls == [SetV(Initial)] && vppCalls == [SetV(Initial)]
      ensures fresh(ctrl) && fresh(data) && fresh(data.out) && fresh(data.input)
      ensures fresh(addr) && fresh(addr.out)
    {
      command := [];
      settings := InitialSettings;
      replies := [];
      vppCalls := [SetV(Initial)];
      vddCalls := [SetV(Initial)];
      ctrl := new Bus.CtrlBus();
      data := new Bus.DataBus();
      addr := new Bus.AddrBus();
    }

    function ParamBool(): bool
      reads this
    {
      GetValueAsBool(Data(command), |command|)
    }

    /** The parameter bytes of the command, from which
        `getParamAsFloat_` takes a voltage. */
    function ParamRaw(): seq<byte>
      reads this
    {
      if |command| > 1 then command[1..] else []
    }

    function ParamByte(): byte
      reads this
    {
      GetValueAsByte(Data(command), |command|)
    }

    function ParamWord(): u16
      reads this
    {
      GetValueAsWord(Data(command), |command|)
    }

    function ParamDWord(): u32
      reads this
    {
      GetValueAsDWord(Data(command), |command|)
    }

    /** The value a device write or verify takes: a word, or a byte in
        8-bit mode. */
    function Param(is16: bool): u16
      reads this
    {
      if is16 then ParamWord() else ParamByte() as u16
    }

    /** One pass of the main loop: read an opcode byte (None on timeout),
        read its parameter bytes, run the command. */
    method Loop(c: Option<byte>, got: seq<byte>, levels: seq<bool>, analog: seq<byte>)
      requires Valid() && |levels| == 16 && |analog| == 2
      modifies this, ctrl, data, data.out, addr, addr.out
      ensures Valid()
      ensures c.None? ==> command == old(command) && replies == old(replies) && settings == old(settings)
                          && vddCalls == old(vddCalls) && vppCalls == old(vppCalls)
                          && unchanged(ctrl, data, data.out, addr, addr.out)
      ensures c.Some? ==> command == Frame(c.value, got)
                          && Answered(old(settings), old(replies), settings, replies, command)
      ensures c.Some? && Accepted(command) && !IsVddOp(c.value as int) && !IsVppOp(c.value as int) ==>
                vddCalls == old(vddCalls) + DeviceVddCalls(c.value as int)
                && vppCalls == old(vppCalls) + DeviceVppCalls(c.value as int)
    {
      if c.None? {
        return;
      }
      command := [c.value];
      var code := Table(c.value as int);
      if code.Some? && code.value.params > 0 {
        var rx := ReadBytes(code.value.params, got);
        command := command + rx;
      }
      RunCommand(levels, analog);
    }

    /** Validates and dispatches the current command. */
    method RunCommand(levels: seq<bool>, analog: seq<byte>)
      requires Valid() && |levels| == 16 && |analog| == 2
      modifies this`settings, this`replies, this`vddCalls, this`vppCalls, ctrl, data, data.out, addr, addr.out
      ensures Valid()
      ensures command == [] ==> replies == old(replies) && settings == old(settings)
                                && vddCalls == old(vddCalls) && vppCalls == old(vppCalls)
                                && unchanged(ctrl, data, data.out, addr, addr.out)
      ensures command != [] && !Accepted(command) ==>
                replies == old(replies) + [Ack(false)] && settings == old(settings)
                && vddCalls == old(vddCalls) && vppCalls == old(vppCalls)
                && unchanged(ctrl, data, data.out, addr, addr.out)
      ensures command != [] && Accepted(command) && command[0] as int == Nop ==> settings == old(settings)
      ensures command != [] ==> Answered(old(settings), old(replies), settings, replies, command)
      ensures command != [] && Accepted(command) && !IsVddOp(command[0] as int) && !IsVppOp(command[0] as int) ==>
                vddCalls == old(vddCalls) + DeviceVddCalls(command[0] as int)
                && vppCalls == old(vppCalls) + DeviceVppCalls(command[0] as int)
    {
      if |command| < 1 {
        return;
      }
      var code := Table(command[0] as int);
      if code.None? || |command| < code.value.params + 1 {
        replies := replies + [Ack(false)];
        return;
      }
      var op := command[0] as int;
      if op == Nop {
        replies := replies + [Ack(true)];
        assert Settled(old(settings), op, command) == settings;
      } else {
        RunHandlers(op, levels, analog);
      }
    }

    /** Every handler `runCommand_` calls after the no-operation test, in
        its order; all but at most one pass the opcode by. */
    method RunHandlers(op: int, levels: seq<bool>, analog: seq<byte>)
      requires Valid() && |levels| == 16 && |analog| == 2 && op != Nop
      modifies this`settings, this`replies, this`vddCalls, this`vppCalls, ctrl, data, data.out, addr, addr.out
      ensures Valid()
      ensures settings == Settled(old(settings), op, command)
      ensures |replies| == |old(replies)| + if Handled(op) then 1 else 0
      ensures !IsVddOp(op) && !IsVppOp(op) ==>
                vddCalls == old(vddCalls) + DeviceVddCalls(op) && vppCalls == old(vppCalls) + DeviceVppCalls(op)
    {
      RunPowerAndBus(op, levels, analog);
      RunDevice(op, levels);
      ReplyCount(op);
    }

    /** The regulator, control-bus, data-bus and address-bus handlers, in
        the order `runCommand_` calls them; at most one of them acts. */
    method RunPowerAndBus(op: int, levels: seq<bool>, analog: seq<byte>)
      requires Valid() && |levels| == 16 && |analog| == 2
      modifies this`replies, this`vddCalls, this`vppCalls, ctrl, data, data.out, addr, addr.out
      ensures Valid()
      ensures |replies| == |old(replies)|
                + (if IsVddOp(op) || IsVppOp(op) || IsCtrlOp(op) || IsDataOp(op) || IsAddrOp(op) then 1 else 0)
      ensures !IsVddOp(op) && !IsVppOp(op) ==> vddCalls == old(vddCalls) && vppCalls == old(vppCalls)
    {
      ghost var n0 := |replies|;
      RunVdd(op, analog);
      ghost var n1 := |replies|;
      assert n1 == n0 + (if IsVddOp(op) then 1 else 0);
      RunVpp(op, analog);
      ghost var n2 := |replies|;
      assert n2 == n1 + (if IsVppOp(op) then 1 else 0);
      RunCtrlBus(op);
      RunDataBus(op, levels);
      ghost var n4 := |replies|;
      assert n4 == n2 + (if IsCtrlOp(op) then 1 else 0) + (if IsDataOp(op) then 1 else 0);
      RunAddrBus(op);
      PowerBusCount(op);
    }

    /** The settings, read, write and verify handlers; at most one acts. */
    method RunDevice(op: int, levels: seq<bool>)
      requires Valid() && |levels| == 16
      modifies this`settings, this`replies, this`vddCalls, this`vppCalls, ctrl, data, data.out, addr, addr.out
      ensures Valid()
      ensures settings == Settled(old(settings), op, command)
      ensures vddCalls == old(vddCalls) + DeviceVddCalls(op)
      ensures vppCalls == old(vppCalls) + DeviceVppCalls(op)
      ensures |replies| == |old(replies)|
                + (if IsSettingsOp(op) || op == DeviceRead || op == DeviceWrite || op == DeviceVerify then 1 else 0)
    {
      RunDeviceSettings(op);
      RunDeviceRead(op, levels);
      RunDeviceWrite(op, levels);
      RunDeviceVerify(op, levels);
    }

    /** `runVddCommand_`: the VDD commands call the regulator and reply Ok;
        the measurement commands reply Ok with the two value bytes of the
        measurement (given as `analog`) and call nothing that changes the
        regulator. How the regulator reacts is not part of this model. */
    method RunVdd(op: int, analog: seq<byte>)
      requires |analog| == 2
      modifies this`replies, this`vddCalls
      ensures replies == old(replies) + (if IsAnalogRead(op) then [[ResponseOk] + analog]
                                          else if IsVddOp(op) then [Ack(true)] else [])
      ensures op == VddCtrl ==> vddCalls == old(vddCalls) + [if ParamBool() then TurnOn else TurnOff]
      ensures op == VddSetV ==> vddCalls == old(vddCalls) + [SetV(Given(ParamRaw()))]
      ensures op == VddInitCal ==> vddCalls == old(vddCalls) + [InitCalibration]
      ensures op == VddSaveCal ==>
                vddCalls == old(vddCalls) + [SaveCalibration(Given(ParamRaw())), SetV(Initial)]
      ensures op == VddOnVpp ==> vddCalls == old(vddCalls) + [Switch(ToVpp, ParamBool())]
      ensures !IsVddOp(op) || IsAnalogRead(op) ==> vddCalls == old(vddCalls)
    {
      if op == VddCtrl {
        vddCalls := vddCalls + [if ParamBool() then TurnOn else TurnOff];
      } else if op == VddSetV {
        vddCalls := vddCalls + [SetV(Given(ParamRaw()))];
      } else if op == VddInitCal {
        vddCalls := vddCalls + [InitCalibration];
      } else if op == VddSaveCal {
        vddCalls := vddCalls + [SaveCalibration(Given(ParamRaw())), SetV(Initial)];
      } else if op == VddOnVpp {
        vddCalls := vddCalls + [Switch(ToVpp, ParamBool())];
      }
      if IsAnalogRead(op) {
        replies := replies + [[ResponseOk] + analog];
      } else if IsVddOp(op) {
        replies := replies + [Ack(true)];
      }
    }

    /** `runVppCommand_`: the same for the VPP regulator, which can also be
        switched onto A9, A18, CE, OE and WE. */
    method RunVpp(op: int, analog: seq<byte>)
      requires |analog| == 2
      modifies this`replies, this`vppCalls
      ensures replies == old(replies) + (if IsVppAnalogRead(op) then [[ResponseOk] + analog]
                                          else if IsVppOp(op) then [Ack(true)] else [])
      ensures op == VppCtrl ==> vppCalls == old(vppCalls) + [if ParamBool() then TurnOn else TurnOff]
      ensures op == VppSetV ==> vppCalls == old(vppCalls) + [SetV(Given(ParamRaw()))]
      ensures op == VppInitCal ==> vppCalls == old(vppCalls) + [InitCalibration]
      ensures op == VppSaveCal ==>
                vppCalls == old(vppCalls) + [SaveCalibration(Given(ParamRaw())), SetV(Initial)]
      ensures op == VppOnA9 ==> vppCalls == old(vppCalls) + [Switch(ToA9, ParamBool())]
      ensures op == VppOnA18 ==> vppCalls == old(vppCalls) + [Switch(ToA18, ParamBool())]
      ensures op == VppOnCE ==> vppCalls == old(vppCalls) + [Switch(ToCE, ParamBool())]
      ensures op == VppOnOE ==> vppCalls == old(vppCalls) + [Switch(ToOE, ParamBool())]
      ensures op == VppOnWE ==> vppCalls == old(vppCalls) + [Switch(ToWE, ParamBool())]
      ensures !IsVppOp(op) || IsVppAnalogRead(op) ==> vppCalls == old(vppCalls)
    {
      if op == VppCtrl {
        vppCalls := vppCalls + [if ParamBool() then TurnOn else TurnOff];
      } else if op == VppSetV {
        vppCalls := vppCalls + [SetV(Given(ParamRaw()))];
      } else if op == VppInitCal {
        vppCalls := vppCalls + [InitCalibration];
      } else if op == VppSaveCal {
        vppCalls := vppCalls + [SaveCalibration(Given(ParamRaw())), SetV(Initial)];
      } else if op == VppOnA9 {
        vppCalls := vppCalls + [Switch(ToA9, ParamBool())];
      } else if op == VppOnA18 {
        vppCalls := vppCalls + [Switch(ToA18, ParamBool())];
      } else if op == VppOnCE {
        vppCalls := vppCalls + [Switch(ToCE, ParamBool())];
      } else if op == VppOnOE {
        vppCalls := vppCalls + [Switch(ToOE, ParamBool())];
      } else if op == VppOnWE {
        vppCalls := vppCalls + [Switch(ToWE, ParamBool())];
      }
      if IsVppAnalogRead(op) {
        replies := replies + [[ResponseOk] + analog];
      } else if IsVppOp(op) {
        replies := replies + [Ack(true)];
      }
    }

    method RunCtrlBus(op: int)
      modifies this`replies, ctrl
      ensures replies == old(replies) + (if IsCtrlOp(op) then [Ack(true)] else [])
      ensures op == BusCE && Bus.CtrlValid(ctrl.config) ==> ctrl.ce == ParamBool()
      ensures op == BusOE && Bus.CtrlValid(ctrl.config) ==> ctrl.oe == ParamBool()
      ensures op == BusWE && Bus.CtrlValid(ctrl.config) ==> ctrl.we == ParamBool()
      ensures !IsCtrlOp(op) || !Bus.CtrlValid(ctrl.config) ==> unchanged(ctrl)
      ensures ctrl.config == old(ctrl.config)
    {
      if op == BusCE {
        ctrl.SetCE(ParamBool());
        replies := replies + [Ack(true)];
      } else if op == BusOE {
        ctrl.SetOE(ParamBool());
        replies := replies + [Ack(true)];
      } else if op == BusWE {
        ctrl.SetWE(ParamBool());
        replies := replies + [Ack(true)];
      }
    }

    method RunDataBus(op: int, levels: seq<bool>)
      requires Valid() && |levels| == 16
      modifies this`replies, data, data.out
      ensures Valid()
      ensures op == BusDataGet ==> replies == old(replies) + [WordReply(BusRead(data.config, levels, true))]
      ensures op == BusDataClr || op == BusDataSet ==>
                replies == old(replies) + [Ack(Bus.DataValid(data.config))]
      ensures op == BusDataClr && Bus.DataValid(data.config) ==> data.data == 0
      ensures op == BusDataSet && Bus.DataValid(data.config) ==> data.data == ParamWord()
      ensures !IsDataOp(op) || op == BusDataGet ==> replies == old(replies) + (if op == BusDataGet
                then [WordReply(BusRead(data.config, levels, true))] else [])
      ensures !(op == BusDataClr || op == BusDataSet) ==> unchanged(data, data.out)
    {
      if op == BusDataClr {
        var ok := data.WriteByte(0);
        replies := replies + [Ack(ok)];
      } else if op == BusDataSet {
        var w := ParamWord();
        var ok := data.WriteWord(w);
        replies := replies + [Ack(ok)];
      } else if op == BusDataGet {
        var w := data.ReadWord(levels);
        replies := replies + [WordReply(w)];
      }
    }

    method RunAddrBus(op: int)
      requires Valid()
      modifies this`replies, addr, addr.out
      ensures Valid()
      ensures IsAddrOp(op) ==> replies == old(replies) + [Ack(Bus.AddrValid(addr.config))]
      ensures !IsAddrOp(op) ==> replies == old(replies) && unchanged(addr, addr.out)
      ensures Bus.AddrValid(addr.config) ==>
                addr.address == (if op == BusAddrClr then 0
                                 else if op == BusAddrInc then old(addr.address) + 1
                                 else if op == BusAddrSet then ParamDWord()
                                 else if op == BusAddrSetB then ParamByte() as u32
                                 else if op == BusAddrSetW then ParamWord() as u32
                                 else old(addr.address))
      ensures !Bus.AddrValid(addr.config) ==> addr.address == old(addr.address)
    {
      var ok := false;
      if op == BusAddrClr {
        ok := addr.WriteByte(0);
      } else if op == BusAddrInc {
        ok := addr.Increment();
      } else if op == BusAddrSet {
        ok := addr.WriteDWord(ParamDWord());
      } else if op == BusAddrSetB {
        ok := addr.WriteByte(ParamByte());
      } else if op == BusAddrSetW {
        ok := addr.WriteWord(ParamWord());
      } else {
        return;
      }
      replies := replies + [Ack(ok)];
    }

    /** The VDD calls the device handler for `op` makes: around the read
        cycle of a read or verify; around the write cycle, when it writes,
        and the read-back, when the write went through, of a write. */
    function DeviceVddCalls(op: int): seq<RegulatorCall>
      reads this, data
    {
      if op == DeviceRead || op == DeviceVerify then ReadVddCalls(settings)
      else if op == DeviceWrite then
        (if NeedsWrite(true) then WriteVddCalls(settings) else [])
        + (if NeedsWrite(true) ==> Bus.DataValid(data.config) then ReadVddCalls(settings) else [])
      else []
    }

    /** The VPP calls the device handler for `op` makes: around the write
        cycle of a write that writes. */
    function DeviceVppCalls(op: int): seq<RegulatorCall>
      reads this
    {
      if op == DeviceWrite && NeedsWrite(true) then WriteVppCalls(settings) else []
    }

    method RunDeviceSettings(op: int)
      modifies this`settings, this`replies
      ensures settings == Settled(old(settings), op, command)
      ensures replies == old(replies) + (if IsSettingsOp(op) then [Ack(true)] else [])
    {
      if op == DeviceSetTwp {
        settings := settings.(twp := ParamDWord());
        replies := replies + [Ack(true)];
      } else if op == DeviceSetTwc {
        settings := settings.(twc := ParamDWord());
        replies := replies + [Ack(true)];
      } else if op == SetFlags {
        settings := DecodeFlagsAsWritten(settings, ParamByte());
        replies := replies + [Ack(true)];
      }
    }

    /** `deviceRead_`: OE low, sample the data bus, OE high; when OE
        doubles as the VPP pin, VDD is switched off that line for the
        cycle. */
    method DeviceReadValue(is16: bool, levels: seq<bool>) returns (d: u16)
      requires Valid() && |levels| == 16
      modifies ctrl`oe, this`vddCalls
      ensures Valid()
      ensures d == BusRead(data.config, levels, is16)
      ensures ctrl.oe == if Bus.CtrlValid(ctrl.config) then false else old(ctrl.oe)
      ensures vddCalls == old(vddCalls) + ReadVddCalls(settings)
    {
      if settings.vppOePin {
        vddCalls := vddCalls + [Switch(ToVpp, false)];
      }
      ctrl.SetOE(true);
      if is16 {
        d := data.ReadWord(levels);
      } else {
        var b := data.ReadByte(levels[..8]);
        d := b as u16;
      }
      ctrl.SetOE(false);
      if settings.vppOePin {
        vddCalls := vddCalls + [Switch(ToVpp, true)];
      }
    }

    /** `deviceWrite_`: put the parameter on the data bus and pulse WE
        (high then low when the pulse is positive, low then high
        otherwise). Fails when the data bus cannot be written. When the
        chip is programmed with VPP, VDD is switched off the VPP line and
        VPP turned on for the cycle, and both undone after it. */
    method DeviceWriteValue(is16: bool) returns (ok: bool)
      requires Valid()
      modifies ctrl`we, data`data, data.out`buffer, data.out`wire, this`vddCalls, this`vppCalls
      ensures Valid()
      ensures ok <==> Bus.DataValid(data.config)
      ensures ok ==> data.data == Param(is16)
      ensures !ok ==> data.data == old(data.data)
      ensures ctrl.we == if Bus.CtrlValid(ctrl.config) then settings.pgmPositive else old(ctrl.we)
      ensures vddCalls == old(vddCalls) + WriteVddCalls(settings)
      ensures vppCalls == old(vppCalls) + WriteVppCalls(settings)
    {
      if settings.progWithVpp {
        vddCalls := vddCalls + [Switch(ToVpp, false)];
        vppCalls := vppCalls + [TurnOn];
      }
      var v := Param(is16);
      if is16 {
        ok := data.WriteWord(v);
      } else {
        ok := data.WriteByte(v as byte);
      }
      PulseWE();
      if settings.progWithVpp {
        vppCalls := vppCalls + [TurnOff];
        vddCalls := vddCalls + [Switch(ToVpp, true)];
      }
    }

    /** The programming pulse on WE: high then low when the pulse is
        positive, low then high otherwise; the bus is left at the level
        the pulse ends on. */
    method PulseWE()
      modifies ctrl`we
      ensures ctrl.we == if Bus.CtrlValid(ctrl.config) then settings.pgmPositive else old(ctrl.we)
    {
      if settings.pgmPositive {
        ctrl.SetWE(false);
        ctrl.SetWE(true);
      } else {
        ctrl.SetWE(true);
        ctrl.SetWE(false);
      }
    }

    /** Whether `deviceWriteAndVerify_` writes at all: not when `skipFF`
        is set and the value passes the empty test as written. */
    predicate NeedsWrite(is16: bool)
      reads this
    {
      !settings.skipFF || !IsEmptyDataAsWritten(Param(is16), is16)
    }

    /** The outcome of `deviceWriteAndVerify_` for the bus levels read
        back. */
    predicate WriteVerifies(is16: bool, levels: seq<bool>)
      requires |levels| == 16
      reads this, data
    {
      (NeedsWrite(is16) ==> Bus.DataValid(data.config))
      && Masked(BusRead(data.config, levels, is16), is16) == Masked(Param(is16), is16)
    }

    /** `deviceWriteAndVerify_`: write the parameter unless `skipFF` is set
        and it is the erased value, then read back; succeeds iff the write
        (when done) succeeded and the read-back equals the parameter,
        compared on the low byte in 8-bit mode. */
    method DeviceWriteAndVerify(is16: bool, levels: seq<bool>) returns (ok: bool)
      requires Valid() && |levels| == 16
      modifies ctrl`we, ctrl`oe, data`data, data.out`buffer, data.out`wire, this`vddCalls, this`vppCalls
      ensures Valid()
      ensures ok <==> WriteVerifies(is16, levels)
      ensures vddCalls == old(vddCalls) + (if NeedsWrite(is16) then WriteVddCalls(settings) else [])
                          + (if NeedsWrite(is16) ==> Bus.DataValid(data.config) then ReadVddCalls(settings) else [])
      ensures vppCalls == old(vppCalls) + if NeedsWrite(is16) then WriteVppCalls(settings) else []
      ensures NeedsWrite(is16) && Bus.DataValid(data.config) ==> data.data == Param(is16)
      ensures !NeedsWrite(is16) ==> data.data == old(data.data)
      ensures ctrl.we == if !Bus.CtrlValid(ctrl.config) then old(ctrl.we)
                         else if (NeedsWrite(is16) ==> Bus.DataValid(data.config)) && settings.pgmCePin then true
                         else if NeedsWrite(is16) then settings.pgmPositive
                         else old(ctrl.we)
      ensures ctrl.oe == if Bus.CtrlValid(ctrl.config) && (NeedsWrite(is16) ==> Bus.DataValid(data.config))
                         then false else old(ctrl.oe)
    {
      var written := WriteUnlessEmpty(is16);
      if !written {
        return false;
      }
      if settings.pgmCePin {
        ctrl.SetWE(true);
      }
      ok := DeviceVerifyValue(is16, levels);
    }

    /** The write half of `deviceWriteAndVerify_`. */
    method WriteUnlessEmpty(is16: bool) returns (ok: bool)
      requires Valid()
      modifies ctrl`we, data`data, data.out`buffer, data.out`wire, this`vddCalls, this`vppCalls
      ensures Valid()
      ensures ok <==> (NeedsWrite(is16) ==> Bus.DataValid(data.config))
      ensures vddCalls == old(vddCalls) + if NeedsWrite(is16) then WriteVddCalls(settings) else []
      ensures vppCalls == old(vppCalls) + if NeedsWrite(is16) then WriteVppCalls(settings) else []
      ensures NeedsWrite(is16) && Bus.DataValid(data.config) ==> data.data == Param(is16)
      ensures !NeedsWrite(is16) ==> data.data == old(data.data)
      ensures ctrl.we == if Bus.CtrlValid(ctrl.config) && NeedsWrite(is16) then settings.pgmPositive else old(ctrl.we)
    {
      var wr: u16;
      var emptyData: bool;
      if is16 {
        wr := ParamWord();
        emptyData := wr == 0xFFFF;
      } else {
        wr := ParamByte() as u16;
        emptyData := IsEmptyDataAsWritten(wr, false);
      }
      ok := true;
      if !settings.skipFF || !emptyData {
        ok := DeviceWriteValue(is16);
      }
    }

    /** `deviceVerify_`: read back and compare with the parameter. */
    method DeviceVerifyValue(is16: bool, levels: seq<bool>) returns (ok: bool)
      requires Valid() && |levels| == 16
      modifies ctrl`oe, this`vddCalls
      ensures Valid()
      ensures vddCalls == old(vddCalls) + ReadVddCalls(settings)
      ensures ok <==> Masked(BusRead(data.config, levels, is16), is16) == Masked(Param(is16), is16)
      ensures ctrl.oe == if Bus.CtrlValid(ctrl.config) then false else old(ctrl.oe)
    {
      var wr: u16 := Param(is16);
      var rd := DeviceReadValue(is16, levels);
      if !is16 {
        wr := wr & 0xFF;
        rd := rd & 0xFF;
      }
      ok := rd == wr;
    }

    /** Reads a word from the device and advances the address; Nok when
        the address cannot advance. */
    method RunDeviceRead(op: int, levels: seq<bool>)
      requires Valid() && |levels| == 16
      modifies this`replies, this`vddCalls, ctrl`oe, addr`address, addr.out`buffer, addr.out`wire
      ensures Valid()
      ensures vddCalls == old(vddCalls) + if op == DeviceRead then ReadVddCalls(settings) else []
      ensures op == DeviceRead ==> replies == old(replies) + [
                if Bus.AddrValid(addr.config) then WordReply(BusRead(data.config, levels, true))
                else Ack(false)]
      ensures op == DeviceRead && Bus.AddrValid(addr.config) ==> addr.address == old(addr.address) + 1
      ensures op != DeviceRead ==> replies == old(replies) && unchanged(ctrl, addr, addr.out)
    {
      if op == DeviceRead {
        var w := DeviceReadValue(true, levels);
        var inc := addr.Increment();
        if inc {
          replies := replies + [WordReply(w)];
        } else {
          replies := replies + [Ack(false)];
        }
      }
    }

    method RunDeviceWrite(op: int, levels: seq<bool>)
      requires Valid() && |levels| == 16
      modifies this`replies, this`vddCalls, this`vppCalls, ctrl`we, ctrl`oe, data`data, data.out`buffer,
               data.out`wire, addr`address, addr.out`buffer, addr.out`wire
      ensures Valid()
      ensures op == DeviceWrite ==> vddCalls == old(vddCalls) + DeviceVddCalls(op) && vppCalls == old(vppCalls) + DeviceVppCalls(op)
      ensures op != DeviceWrite ==> vddCalls == old(vddCalls) && vppCalls == old(vppCalls)
      ensures op == DeviceWrite ==>
                replies == old(replies) + [Ack(WriteVerifies(true, levels) && Bus.AddrValid(addr.config))]
      ensures op == DeviceWrite && WriteVerifies(true, levels) && Bus.AddrValid(addr.config) ==>
                addr.address == old(addr.address) + 1
      ensures op != DeviceWrite ==> replies == old(replies) && unchanged(ctrl, data, data.out, addr, addr.out)
    {
      if op == DeviceWrite {
        var ok := DeviceWriteAndVerify(true, levels);
        if ok {
          ok := addr.Increment();
        }
        replies := replies + [Ack(ok)];
      }
    }

    method RunDeviceVerify(op: int, levels: seq<bool>)
      requires Valid() && |levels| == 16
      modifies this`replies, this`vddCalls, ctrl`oe, addr`address, addr.out`buffer, addr.out`wire
      ensures Valid()
      ensures vddCalls == old(vddCalls) + if op == DeviceVerify then ReadVddCalls(settings) else []
      ensures op == DeviceVerify ==> replies == old(replies) + [Ack(
                Masked(BusRead(data.config, levels, true), true) == ParamWord()
                && Bus.AddrValid(addr.config))]
      ensures op == DeviceVerify && Bus.AddrValid(addr.config)
                && Masked(BusRead(data.config, levels, true), true) == ParamWord() ==>
                addr.address == old(addr.address) + 1
      ensures op != DeviceVerify ==> replies == old(replies) && unchanged(ctrl, addr, addr.out)
    {
      if op == DeviceVerify {
        var ok := DeviceVerifyValue(true, levels);
        if ok {
          ok := addr.Increment();
        }
        replies := replies + [Ack(ok)];
      }
    }
  }
}
