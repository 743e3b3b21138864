/** The firmware's wire protocol: the opcode table, the response codes and
    the parameter codec. A frame is `[opcode, param bytes...]`; a reply is
    `[status, result bytes...]`. Multi-byte values travel MSB first. */
module OpCodes {
  import opened Bytes

  // Parameter values.
  const ParamOff: byte := 0x00
  const ParamOn: byte := 0x01

  // Response status bytes.
  const ResponseNok: byte := 0xA0
  const ResponseOk: byte := 0xA1

  // Opcodes.
  const Nop := 0x00
  const VddCtrl := 0x01
  const VddSetV := 0x02
  const VddGetV := 0x03
  const VddGetDuty := 0x04
  const VddGetCal := 0x05
  const VddInitCal := 0x06
  const VddSaveCal := 0x07
  const VddOnVpp := 0x08
  const VppCtrl := 0x11
  const VppSetV := 0x12
  const VppGetV := 0x13
  const VppGetDuty := 0x14
  const VppGetCal := 0x15
  const VppInitCal := 0x16
  const VppSaveCal := 0x17
  const VppOnA9 := 0x18
  const VppOnA18 := 0x19
  const VppOnCE := 0x1A
  const VppOnOE := 0x1B
  const VppOnWE := 0x1C
  const BusCE := 0x21
  const BusOE := 0x22
  const BusWE := 0x23
  const BusAddrClr := 0x31
  const BusAddrInc := 0x32
  const BusAddrSet := 0x33
  const BusAddrSetB := 0x34
  const BusAddrSetW := 0x35
  const BusDataClr := 0x41
  const BusDataSet := 0x42
  const BusDataSetW := 0x43
  const BusDataGet := 0x44
  const BusDataGetW := 0x45
  const DeviceSetTwp := 0x81
  const DeviceSetTwc := 0x82
  const DeviceConfigure := 0x83
  const DeviceSetupBus := 0x84
  const DeviceRead := 0x85
  const DeviceWrite := 0x86
  const DeviceWriteSector := 0x87
  const DeviceVerify := 0x88
  const DeviceBlankCheck := 0x89
  const DeviceGetId := 0x8A
  const DeviceErase := 0x8B
  const DeviceUnprotect := 0x8C
  const DeviceProtect := 0x8D

  /** One entry of the opcode table: the code, a description, and the
      number of parameter and result bytes. */
  datatype OpCode = OpCode(code: int, descr: string, params: nat, result: nat)

  /** The opcode table: the entry stored under each code, if any. */
  function Table(code: int): (r: Option<OpCode>)
  {
    match code
    case 0x00 => Some(OpCode(Nop, "Nop", 0, 0))
    case 0x01 => Some(OpCode(VddCtrl, "Vdd Ctrl", 1, 0))
    case 0x02 => Some(OpCode(VddSetV, "Vdd SetV", 2, 0))
    case 0x03 => Some(OpCode(VddGetV, "Vdd GetV", 0, 2))
    case 0x04 => Some(OpCode(VddGetDuty, "Vdd GetDuty", 0, 2))
    case 0x05 => Some(OpCode(VddGetCal, "Vdd GetCal", 0, 2))
    case 0x06 => Some(OpCode(VddInitCal, "Vdd InitCal", 0, 0))
    case 0x07 => Some(OpCode(VddSaveCal, "Vdd SaveCal", 2, 0))
    case 0x08 => Some(OpCode(VddOnVpp, "Vdd On Vpp", 1, 0))
    case 0x11 => Some(OpCode(VppCtrl, "Vpp Ctrl", 1, 0))
    case 0x12 => Some(OpCode(VppSetV, "Vpp SetV", 2, 0))
    case 0x13 => Some(OpCode(VppGetV, "Vpp GetV", 0, 2))
    case 0x14 => Some(OpCode(VppGetDuty, "Vpp GetDuty", 0, 2))
    case 0x15 => Some(OpCode(VppGetCal, "Vpp GetCal", 0, 2))
    case 0x16 => Some(OpCode(VppInitCal, "Vpp InitCal", 0, 0))
    case 0x17 => Some(OpCode(VppSaveCal, "Vpp SaveCal", 2, 0))
    case 0x18 => Some(OpCode(VppOnA9, "Vpp On A9", 1, 0))
    case 0x19 => Some(OpCode(VppOnA18, "Vpp On A18", 1, 0))
    case 0x1A => Some(OpCode(VppOnCE, "Vpp On CE", 1, 0))
    case 0x1B => Some(OpCode(VppOnOE, "Vpp On OE", 1, 0))
    case 0x1C => Some(OpCode(VppOnWE, "Vpp On WE", 1, 0))
    case 0x21 => Some(OpCode(BusCE, "Set CE", 1, 0))
    case 0x22 => Some(OpCode(BusOE, "Set OE", 1, 0))
    case 0x23 => Some(OpCode(BusWE, "Set WE", 1, 0))
    case 0x31 => Some(OpCode(BusAddrClr, "Addr Clr", 0, 0))
    case 0x32 => Some(OpCode(BusAddrInc, "Addr Inc", 0, 0))
    case 0x33 => Some(OpCode(BusAddrSet, "Addr Set", 3, 0))
    case 0x34 => Some(OpCode(BusAddrSetB, "Addr SetByte", 1, 0))
    case 0x35 => Some(OpCode(BusAddrSetW, "Addr SetWord", 2, 0))
    case 0x41 => Some(OpCode(BusDataClr, "Data Clr", 0, 0))
    case 0x42 => Some(OpCode(BusDataSet, "Data Set", 1, 0))
    case 0x43 => Some(OpCode(BusDataSetW, "Data SetWord", 2, 0))
    case 0x44 => Some(OpCode(BusDataGet, "Data Get", 0, 1))
    case 0x45 => Some(OpCode(BusDataGetW, "Data GetWord", 0, 2))
    case 0x81 => Some(OpCode(DeviceSetTwp, "Device Set Twp", 4, 0))
    case 0x82 => Some(OpCode(DeviceSetTwc, "Device Set Twc", 4, 0))
    case 0x83 => Some(OpCode(DeviceConfigure, "Device Configure", 2, 0))
    case 0x84 => Some(OpCode(DeviceSetupBus, "Device Setup Bus", 1, 0))
    case 0x85 => Some(OpCode(DeviceRead, "Device Read", 1, 0))
    case 0x86 => Some(OpCode(DeviceWrite, "Device Write", 1, 0))
    case 0x87 => Some(OpCode(DeviceWriteSector, "Device WriteSector", 2, 0))
    case 0x88 => Some(OpCode(DeviceVerify, "Device Verify", 1, 0))
    case 0x89 => Some(OpCode(DeviceBlankCheck, "Device BlankCheck", 1, 0))
    case 0x8A => Some(OpCode(DeviceGetId, "Device GetID", 0, 4))
    case 0x8B => Some(OpCode(DeviceErase, "Device Erase", 0, 0))
    case 0x8C => Some(OpCode(DeviceUnprotect, "Device Unprotect", 0, 0))
    case 0x8D => Some(OpCode(DeviceProtect, "Device Protect", 0, 0))
    case _ => None
  }

  /** Every entry is stored under its own code. */
  lemma TableKeysAreCodes()
    ensures forall k :: Table(k).Some? ==> Table(k).value.code == k
  {
  }

  /** No frame carries more than four parameter or result bytes. */
  lemma TableByteCounts()
    ensures forall k :: Table(k).Some? ==> Table(k).value.params <= 4 && Table(k).value.result <= 4
  {
  }

  /** The entries whose byte counts the protocol documents specially; the
      address-set entry declares three parameter bytes although its
      documentation speaks of four. */
  lemma TableShape()
    ensures Table(Nop) == Some(OpCode(Nop, "Nop", 0, 0))
    ensures Table(BusAddrSet).Some? && Table(BusAddrSet).value.params == 3
    ensures Table(DeviceGetId).Some? && Table(DeviceGetId).value.result == 4
    ensures Table(DeviceSetTwp).Some? && Table(DeviceSetTwp).value.params == 4
    ensures Table(DeviceSetTwc).Some? && Table(DeviceSetTwc).value.params == 4
  {
  }

  /** A caller's buffer: null, or the bytes it holds. */
  datatype Buffer = Null | Data(bytes: seq<byte>)

  /** The C contract of every codec entry point: `size` bytes are readable. */
  predicate Fits(buf: Buffer, size: nat)
  {
    buf.Data? ==> size <= |buf.bytes|
  }

  /** True iff the reply reports success. */
  function IsOk(buf: Buffer, size: nat): (r: bool)
    requires Fits(buf, size)
    ensures r <==> buf.Data? && size > 0 && buf.bytes[0] == ResponseOk
  {
    buf.Data? && size > 0 && buf.bytes[0] == ResponseOk
  }

  /** The NOP entry, which lookups fall back to. */
  const NopEntry: OpCode := OpCode(Nop, "Nop", 0, 0)

  /** Looks a code up; unknown codes give the NOP entry. */
  function GetOpCode(code: byte): (r: OpCode)
    ensures Table(r.code) == Some(r)
    ensures r.code == code as int <==> Table(code as int).Some?
    ensures Table(code as int).None? ==> r == NopEntry
  {
    TableKeysAreCodes();
    match Table(code as int)
    case Some(e) => e
    case None => NopEntry
  }

  /** The opcode of a frame: its first byte, or NOP for an empty frame. */
  function GetFrameOpCode(buf: Buffer, size: nat): (r: OpCode)
    requires Fits(buf, size)
    ensures buf.Null? || size == 0 ==> r == NopEntry
    ensures buf.Data? && size > 0 ==> r == GetOpCode(buf.bytes[0])
  {
    if buf.Null? || size == 0 then NopEntry else GetOpCode(buf.bytes[0])
  }

  function GetValueAsByte(buf: Buffer, size: nat): (r: byte)
    requires Fits(buf, size)
  {
    if buf.Null? || size < 2 then 0 else buf.bytes[1]
  }

  function GetValueAsBool(buf: Buffer, size: nat): (r: bool)
    requires Fits(buf, size)
  {
    GetValueAsByte(buf, size) != ParamOff
  }

  /** Bytes 1..2, MSB first; a shorter frame falls back to the byte value. */
  function GetValueAsWord(buf: Buffer, size: nat): (r: u16)
    requires Fits(buf, size)
  {
    if size < 3 then GetValueAsByte(buf, size) as u16
    else if buf.Null? then 0
    else Word(buf.bytes[1], buf.bytes[2])
  }

  /** Big-endian compositions of two, three and four bytes. */
  function Word(hi: byte, lo: byte): u16
  {
    (hi as u16 << 8) | (lo as u16)
  }

  function DWord3(b1: byte, b2: byte, b3: byte): u32
  {
    (b1 as u32 << 16) | (b2 as u32 << 8) | (b3 as u32)
  }

  function DWord4(b1: byte, b2: byte, b3: byte, b4: byte): u32
  {
    (b1 as u32 << 24) | (b2 as u32 << 16) | (b3 as u32 << 8) | (b4 as u32)
  }

  /** Bytes 1..4 MSB first; a 4-byte frame carries only three value bytes;
      a shorter frame falls back to the word value. */
  function GetValueAsDWord(buf: Buffer, size: nat): (r: u32)
    requires Fits(buf, size)
  {
    if size < 4 then GetValueAsWord(buf, size) as u32
    else if buf.Null? then 0
    else if size == 4 then DWord3(buf.bytes[1], buf.bytes[2], buf.bytes[3])
    else DWord4(buf.bytes[1], buf.bytes[2], buf.bytes[3], buf.bytes[4])
  }

  // ---- setters: the effect on the caller's bytes ----

  /** The frame after `setByte`: byte 1 replaced when there is room. */
  function PutByte(s: seq<byte>, size: nat, v: byte): (r: seq<byte>)
    requires size <= |s|
  {
    if size < 2 then s else s[1 := v]
  }

  function PutWord(s: seq<byte>, size: nat, v: u16): (r: seq<byte>)
    requires size <= |s|
  {
    if size < 3 then s else s[1 := (v >> 8) as byte][2 := (v & 0xFF) as byte]
  }

  function PutDWord(s: seq<byte>, size: nat, v: u32): (r: seq<byte>)
    requires size <= |s|
  {
    if size < 4 then s
    else if size == 4 then
      s[1 := ((v >> 16) & 0xFF) as byte][2 := ((v >> 8) & 0xFF) as byte][3 := (v & 0xFF) as byte]
    else
      s[1 := (v >> 24) as byte][2 := ((v >> 16) & 0xFF) as byte]
       [3 := ((v >> 8) & 0xFF) as byte][4 := (v & 0xFF) as byte]
  }

  method SetByte(buf: array?<byte>, size: nat, value: byte) returns (ok: bool)
    requires buf != null ==> size <= buf.Length
    modifies buf
    ensures ok <==> buf != null && size >= 2
    ensures buf != null ==> buf[..] == PutByte(old(buf[..]), size, value)
  {
    if buf == null || size < 2 {
      return false;
    }
    buf[1] := value;
    return true;
  }

  method SetWord(buf: array?<byte>, size: nat, value: u16) returns (ok: bool)
    requires buf != null ==> size <= buf.Length
    modifies buf
    ensures ok <==> buf != null && size >= 3
    ensures buf != null ==> buf[..] == PutWord(old(buf[..]), size, value)
  {
    if buf == null || size < 3 {
      return false;
    }
    buf[1] := (value >> 8) as byte;
    buf[2] := (value & 0xFF) as byte;
    return true;
  }

  method SetDWord(buf: array?<byte>, size: nat, value: u32) returns (ok: bool)
    requires buf != null ==> size <= buf.Length
    modifies buf
    ensures ok <==> buf != null && size >= 4
    ensures buf != null ==> buf[..] == PutDWord(old(buf[..]), size, value)
  {
    if buf == null || size < 4 {
      return false;
    }
    if size == 4 {
      buf[1] := ((value >> 16) & 0xFF) as byte;
      buf[2] := ((value >> 8) & 0xFF) as byte;
      buf[3] := (value & 0xFF) as byte;
    } else {
      buf[1] := (value >> 24) as byte;
      buf[2] := ((value >> 16) & 0xFF) as byte;
      buf[3] := ((value >> 8) & 0xFF) as byte;
      buf[4] := (value & 0xFF) as byte;
    }
    return true;
  }

  method SetBool(buf: array?<byte>, size: nat, value: bool) returns (ok: bool)
    requires buf != null ==> size <= buf.Length
    modifies buf
    ensures ok <==> buf != null && size >= 2
    ensures buf != null ==> buf[..] == PutByte(old(buf[..]), size, if value then ParamOn else ParamOff)
  {
    ok := SetByte(buf, size, if value then ParamOn else ParamOff);
  }

  // ---- the codec's laws ----

  /** The setters never touch the status/opcode byte, nor bytes past the
      value, and keep the length. */
  lemma PutKeepsFrame(s: seq<byte>, size: nat, b: byte, w: u16, d: u32)
    requires 1 <= size <= |s|
    ensures |PutByte(s, size, b)| == |PutWord(s, size, w)| == |PutDWord(s, size, d)| == |s|
    ensures PutByte(s, size, b)[0] == PutWord(s, size, w)[0] == PutDWord(s, size, d)[0] == s[0]
    ensures forall i :: size <= i < |s| ==>
      PutByte(s, size, b)[i] == PutWord(s, size, w)[i] == PutDWord(s, size, d)[i] == s[i]
  {
  }

  lemma ByteRoundTrip(s: seq<byte>, size: nat, v: byte)
    requires 2 <= size <= |s|
    ensures GetValueAsByte(Data(PutByte(s, size, v)), size) == v
  {
  }

  lemma BoolRoundTrip(s: seq<byte>, size: nat, v: bool)
    requires 2 <= size <= |s|
    ensures GetValueAsBool(Data(PutByte(s, size, if v then ParamOn else ParamOff)), size) == v
  {
  }

  /** `setWord` followed by `getValueAsWord` gives the value back. */
  lemma WordRoundTrip(s: seq<byte>, size: nat, v: u16)
    requires 3 <= size <= |s|
    ensures GetValueAsWord(Data(PutWord(s, size, v)), size) == v
  {
    var t := PutWord(s, size, v);
    assert t[1] == (v >> 8) as byte && t[2] == (v & 0xFF) as byte;
    WordBits(v);
  }

  lemma WordBits(v: u16)
    ensures Word((v >> 8) as byte, (v & 0xFF) as byte) == v
  {
  }

  /** With 5 or more bytes the double word round-trips; a 4-byte frame
      carries only the low 24 bits. */
  lemma DWordRoundTrip(s: seq<byte>, size: nat, v: u32)
    requires 4 <= size <= |s|
    ensures size >= 5 ==> GetValueAsDWord(Data(PutDWord(s, size, v)), size) == v
    ensures size == 4 ==> GetValueAsDWord(Data(PutDWord(s, size, v)), size) == v & 0xFF_FFFF
  {
    var t := PutDWord(s, size, v);
    if size == 4 {
      var b1, b2, b3 := t[1], t[2], t[3];
      DWord3Bits(v, b1, b2, b3);
    } else {
      var b1, b2, b3, b4 := t[1], t[2], t[3], t[4];
      DWord4Bits(v, b1, b2, b3, b4);
    }
  }

  lemma DWord3Bits(v: u32, b1: byte, b2: byte, b3: byte)
    requires b1 == ((v >> 16) & 0xFF) as byte && b2 == ((v >> 8) & 0xFF) as byte
    requires b3 == (v & 0xFF) as byte
    ensures DWord3(b1, b2, b3) == v & 0xFF_FFFF
  {
  }

  lemma DWord4Bits(v: u32, b1: byte, b2: byte, b3: byte, b4: byte)
    requires b1 == (v >> 24) as byte && b2 == ((v >> 16) & 0xFF) as byte
    requires b3 == ((v >> 8) & 0xFF) as byte && b4 == (v & 0xFF) as byte
    ensures DWord4(b1, b2, b3, b4) == v
  {
  }

  /** The getters' fall-backs: a too-short or null buffer reads as 0 or as
      the narrower value, exactly as the code chains them. */
  lemma GetterFallbacks(buf: Buffer, size: nat)
    requires Fits(buf, size)
    ensures buf.Null? ==> GetValueAsByte(buf, size) == 0 && GetValueAsWord(buf, size) == 0
                          && GetValueAsDWord(buf, size) == 0 && !GetValueAsBool(buf, size)
    ensures size < 2 ==> GetValueAsDWord(buf, size) == 0
    ensures size < 3 ==> GetValueAsWord(buf, size) == GetValueAsByte(buf, size) as u16
    ensures size < 4 ==> GetValueAsDWord(buf, size) == GetValueAsWord(buf, size) as u32
  {
  }
}
