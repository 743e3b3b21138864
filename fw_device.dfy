/** The firmware's device engine: the settings received from the host and
    the buffer operations (read, write with optional skip of erased cells
    and verify, verify, blank check, identification, erase, protection)
    that it runs over the address and data buses.

    The chip on the buses is an idealised cell memory `mem`: a read
    returns the cell at the current address (0xFFFF beyond the end), a
    write stores into it. Whether the buses are configured is the flag
    `busOk`: with it every bus operation succeeds, without it none does
    and a data-bus read returns 0. The chip's answers in identification
    mode and the status byte of the Intel 28F algorithm are inputs. */
module FwDevice {
  import opened Bytes
  import OpCodes

  const AlgoUnknown: byte := 0x00
  const AlgoSRAM: byte := 0x04
  const AlgoEPROM: byte := 0x08
  const AlgoEEPROM28C64: byte := 0x0C
  const AlgoEEPROM28C256: byte := 0x0D
  const AlgoFlash28F: byte := 0x10
  const AlgoFlashSST28SF: byte := 0x11
  const AlgoFlashAm28F: byte := 0x12
  const AlgoFlashI28F: byte := 0x13

  datatype Flags = Flags(skipFF: bool, progWithVpp: bool, vppOePin: bool,
                         pgmCePin: bool, pgmPositive: bool, is16bit: bool)

  datatype Settings = Settings(twp: u32, twc: u32, flags: Flags, algo: byte)

  const InitialSettings := Settings(0, 0, Flags(false, false, false, false, false, false), AlgoUnknown)

  /** The flags held in bits 0..5 of the low byte of `configure`'s
      argument, in declaration order. */
  function FlagsOf(b: byte): Flags
  {
    Flags(HasBit(b, 0), HasBit(b, 1), HasBit(b, 2), HasBit(b, 3), HasBit(b, 4), HasBit(b, 5))
  }

  /** The byte a host sends for `f`. */
  function FlagsByte(f: Flags): (r: byte)
    ensures r & 0xC0 == 0
  {
    (if f.skipFF then 0x01 else 0) | (if f.progWithVpp then 0x02 else 0)
    | (if f.vppOePin then 0x04 else 0) | (if f.pgmCePin then 0x08 else 0)
    | (if f.pgmPositive then 0x10 else 0) | (if f.is16bit then 0x20 else 0)
  }

  /** Decoding the byte of a set of flags gives the same flags. */
  lemma FlagsRoundTrip(f: Flags)
    ensures FlagsOf(FlagsByte(f)) == f
  {
  }

  /** Decoding then encoding keeps bits 0..5 and drops bits 6 and 7. */
  lemma FlagsByteOfFlags(b: byte)
    ensures FlagsByte(FlagsOf(b)) == b & 0x3F
  {
  }

  /** The settings after `configure(value)`: flags from the low byte, the
      algorithm from the high byte, the timings unchanged. */
  function Configured(s: Settings, value: u16): Settings
  {
    s.(flags := FlagsOf((value & 0xFF) as byte), algo := ((value & 0xFF00) >> 8) as byte)
  }

  /** A configuration word built from flags and an algorithm is decoded
      into exactly those. */
  lemma ConfiguredRoundTrip(s: Settings, f: Flags, algo: byte)
    ensures Configured(s, OpCodes.Word(algo, FlagsByte(f))) == s.(flags := f, algo := algo)
  {
    WordHalves(algo, FlagsByte(f));
    FlagsRoundTrip(f);
  }

  lemma WordHalves(hi: byte, lo: byte)
    ensures (OpCodes.Word(hi, lo) & 0xFF) as byte == lo
    ensures ((OpCodes.Word(hi, lo) & 0xFF00) >> 8) as byte == hi
  {
  }

  /** A value of the 32-bit address register. */
  type Address = a: int | 0 <= a < 0x1_0000_0000

  /** The address register after one increment, wrapping at 32 bits. */
  function Next(a: Address): Address
  {
    (a + 1) % 0x1_0000_0000
  }

  /** The address `k` increments after `start`. */
  function Addr(start: Address, k: nat): Address
  {
    (start + k) % 0x1_0000_0000
  }

  /** Incrementing the address register moves to the next address. */
  lemma AddrNext(start: Address, k: nat)
    ensures Next(Addr(start, k)) == Addr(start, k + 1)
  {
  }

  /** What the chip holds at `a`; beyond its end the lines read high. */
  function Cell(mem: seq<u16>, a: Address): u16
  {
    if a < |mem| then mem[a] else 0xFFFF
  }

  /** A value as the bus carries it: whole in 16-bit mode, its low byte
      otherwise. */
  function Masked(w: u16, is16: bool): u16
  {
    if is16 then w else w & 0xFF
  }

  /** Masking twice is masking once, and outside 16-bit mode the result
      fits a byte. */
  lemma MaskedTwice(w: u16, is16: bool)
    ensures Masked(Masked(w, is16), is16) == Masked(w, is16)
    ensures !is16 ==> Masked(w, is16) <= 0xFF
  {
  }

  /** A cell whose value means "erased": 0xFFFF in 16-bit mode, 0xFF
      otherwise. */
  predicate Empty(w: u16, is16: bool)
  {
    if is16 then w == 0xFFFF else w == 0xFF
  }

  /** The bytes of `read` for one value: high byte then low byte in 16-bit
      mode, the low byte otherwise. */
  function CellBytes(v: u16, is16: bool): (r: seq<byte>)
    ensures |r| == if is16 then 2 else 1
  {
    if is16 then [((v & 0xFF00) >> 8) as byte, (v & 0xFF) as byte] else [(v & 0xFF) as byte]
  }

  /** The result of reading `count` cells from `start` on. */
  function ReadImage(mem: seq<u16>, start: Address, count: nat, is16: bool): seq<byte>
  {
    if count == 0 then []
    else ReadImage(mem, start, count - 1, is16) + CellBytes(Masked(Cell(mem, Addr(start, count - 1)), is16), is16)
  }

  /** The values a write or verify buffer holds: one per byte, or one per
      pair of bytes (high byte first) in 16-bit mode. */
  function Words(value: seq<byte>, is16: bool): (r: seq<u16>)
    ensures |r| == if is16 then |value| / 2 else |value|
  {
    if is16 then seq(|value| / 2, k requires 0 <= k < |value| / 2 => PairAt(value, k))
    else seq(|value|, k requires 0 <= k < |value| => ByteAt(value, k))
  }

  /** The bytes the loops of `write` and `verify` take from a buffer: in
      16-bit mode an odd-sized buffer has its last byte paired with the
      byte `value[i + 1]` reads just past its end, given as `past`. */
  function Padded(value: seq<byte>, is16: bool, past: byte): (r: seq<byte>)
    ensures is16 ==> |r| % 2 == 0
    ensures |r| == if is16 && |value| % 2 == 1 then |value| + 1 else |value|
    ensures r[..|value|] == value
    ensures |value| < |r| ==> r[|value|] == past
  {
    if is16 && |value| % 2 == 1 then value + [past] else value
  }

  /** So a 16-bit buffer of `n` bytes gives `(n + 1) / 2` values, the last
      of an odd one having `past` as its low byte. */
  lemma PaddedWords(value: seq<byte>, past: byte)
    requires |value| % 2 == 1
    ensures |Words(Padded(value, true, past), true)| == (|value| + 1) / 2
    ensures Words(Padded(value, true, past), true)[|value| / 2] == OpCodes.Word(value[|value| - 1], past)
  {
    var buf := Padded(value, true, past);
    assert buf[2 * (|value| / 2)] == value[|value| - 1];
  }

  function PairAt(value: seq<byte>, k: nat): u16
    requires 2 * k + 1 < |value|
  {
    OpCodes.Word(value[2 * k], value[2 * k + 1])
  }

  function ByteAt(value: seq<byte>, k: nat): u16
    requires k < |value|
  {
    value[k] as u16
  }

  /** The length checked against the caller's `count`: the buffer size,
      doubled in 16-bit mode. */
  function Required(size: nat, is16: bool): nat
  {
    if is16 then 2 * size else size
  }

  /** `mem` with the cell at `a` set to `v`, when the chip has one there. */
  function Store(mem: seq<u16>, a: Address, v: u16): (r: seq<u16>)
    ensures |r| == |mem|
  {
    if a < |mem| then mem[a := v] else mem
  }

  /** The memory after writing `w` at `a`; an erased value is not written
      when `skip` is set. */
  function Put(mem: seq<u16>, a: Address, w: u16, skip: bool, is16: bool): (r: seq<u16>)
    ensures |r| == |mem|
  {
    if skip && Empty(w, is16) then mem else Store(mem, a, Masked(w, is16))
  }

  /** The memory after writing the first `n` values of `words` from
      `start` on. */
  function Programmed(mem: seq<u16>, start: Address, words: seq<u16>, skip: bool, is16: bool, n: nat): (r: seq<u16>)
    requires n <= |words|
    ensures |r| == |mem|
  {
    if n == 0 then mem
    else Put(Programmed(mem, start, words, skip, is16, n - 1), Addr(start, n - 1), words[n - 1], skip, is16)
  }

  /** The verify step of value `k` of a write passes: nothing to verify,
      or the cell it was written to reads it back. */
  predicate StepVerifies(mem: seq<u16>, start: Address, words: seq<u16>, skip: bool, is16: bool,
                         verify: bool, k: nat)
    requires k < |words|
  {
    !verify
    || Masked(Cell(Programmed(mem, start, words, skip, is16, k + 1), Addr(start, k)), is16)
       == Masked(words[k], is16)
  }

  /** Value `k` of a verify or blank check matches the cell it is
      compared with. */
  predicate Matches(mem: seq<u16>, start: Address, words: seq<u16>, is16: bool, k: nat)
    requires k < |words|
  {
    Masked(Cell(mem, Addr(start, k)), is16) == Masked(words[k], is16)
  }

  /** `count` erased values, as a blank check compares them. */
  function Blank(count: nat): (r: seq<u16>)
    ensures |r| == count && forall k :: 0 <= k < count ==> r[k] == 0xFFFF
  {
    seq(count, k => Erased())
  }

  function Erased(): u16
  {
    0xFFFF
  }

  /** The status byte `checkStatus_` accepts from an Intel 28F chip; bit 0
      is ignored. */
  const StatusOkI28F: byte := 0x80

  /** What `checkStatus_` reports after a write cycle: only the Intel 28F
      algorithm reads the status byte, and it passes when bits 1 to 7
      read 0x80. */
  predicate StatusPasses(algo: byte, status: byte)
  {
    algo != AlgoFlashI28F || status & 0xFE == StatusOkI28F
  }

  /** The status bytes the chip answers during a write, one per value of
      the buffer, under the algorithm in use. */
  datatype StatusLog = StatusLog(algo: byte, bytes: seq<byte>)

  /** A run of write cycles whose status is never read. */
  const Unchecked := StatusLog(AlgoUnknown, [])

  /** The status byte read after the write of value `k`; a chip that
      answers no more status bytes reads as 0x00. */
  function StatusByte(st: StatusLog, k: nat): byte
  {
    if k < |st.bytes| then st.bytes[k] else 0
  }

  /** Value `k` of a write succeeds: it is skipped or its write cycle
      passes the status check, and its read-back passes. */
  predicate StepOk(mem: seq<u16>, start: Address, words: seq<u16>, skip: bool, is16: bool,
                   verify: bool, st: StatusLog, k: nat)
    requires k < |words|
  {
    ((skip && Empty(words[k], is16)) || StatusPasses(st.algo, StatusByte(st, k)))
    && StepVerifies(mem, start, words, skip, is16, verify, k)
  }

  /** Under the Intel 28F algorithm a value that is written fails on a bad
      status byte even when it reads back; under any other algorithm the
      status byte is never looked at. */
  lemma StepOkStatus(mem: seq<u16>, start: Address, words: seq<u16>, skip: bool, is16: bool,
                     verify: bool, st: StatusLog, k: nat)
    requires k < |words|
    ensures st.algo != AlgoFlashI28F ==>
              (StepOk(mem, start, words, skip, is16, verify, st, k) <==> StepVerifies(mem, start, words, skip, is16, verify, k))
    ensures st.algo == AlgoFlashI28F && !(skip && Empty(words[k], is16)) ==>
              (StepOk(mem, start, words, skip, is16, verify, st, k) <==>
                 k < |st.bytes| && st.bytes[k] & 0xFE == 0x80 && StepVerifies(mem, start, words, skip, is16, verify, k))
  {
  }

  /** The result of writing `words` from `start` on, each value read back
      when `verify` is set and its status checked: true iff every value
      passes; then all are written and the address has moved past them,
      otherwise the write stopped at the first value that does not pass,
      after writing it. */
  predicate ProgramOutcome(mem0: seq<u16>, start: Address, words: seq<u16>, skip: bool, is16: bool,
                           verify: bool, st: StatusLog, ok: bool, mem: seq<u16>, address: Address)
  {
    (ok <==> forall k :: 0 <= k < |words| ==> StepOk(mem0, start, words, skip, is16, verify, st, k))
    && (ok ==> mem == Programmed(mem0, start, words, skip, is16, |words|) && address == Addr(start, |words|))
    && (!ok ==> exists j :: 0 <= j < |words| && !StepOk(mem0, start, words, skip, is16, verify, st, j)
                            && mem == Programmed(mem0, start, words, skip, is16, j + 1)
                            && address == Addr(start, j))
  }

  /** A write that stops at value `n` has this outcome. */
  lemma ProgramFails(mem0: seq<u16>, start: Address, words: seq<u16>, skip: bool, is16: bool, verify: bool,
                     st: StatusLog, n: nat, mem: seq<u16>, address: Address)
    requires n < |words| && mem == Programmed(mem0, start, words, skip, is16, n + 1) && address == Addr(start, n)
    requires !StepOk(mem0, start, words, skip, is16, verify, st, n)
    ensures ProgramOutcome(mem0, start, words, skip, is16, verify, st, false, mem, address)
  {
  }

  /** A write that verifies every value has this outcome. */
  lemma ProgramSucceeds(mem0: seq<u16>, start: Address, words: seq<u16>, skip: bool, is16: bool, verify: bool,
                        st: StatusLog, mem: seq<u16>, address: Address)
    requires mem == Programmed(mem0, start, words, skip, is16, |words|) && address == Addr(start, |words|)
    requires forall k :: 0 <= k < |words| ==> StepOk(mem0, start, words, skip, is16, verify, st, k)
    ensures ProgramOutcome(mem0, start, words, skip, is16, verify, st, true, mem, address)
  {
  }

  /** Value `n` of a write: its cell is written, and it verifies exactly
      when nothing is verified or that cell reads it back. */
  lemma ProgrammedNext(mem0: seq<u16>, start: Address, words: seq<u16>, skip: bool, is16: bool, verify: bool, n: nat)
    requires n < |words|
    ensures Programmed(mem0, start, words, skip, is16, n + 1)
            == Put(Programmed(mem0, start, words, skip, is16, n), Addr(start, n), words[n], skip, is16)
    ensures StepVerifies(mem0, start, words, skip, is16, verify, n) <==>
            !verify || Masked(Cell(Programmed(mem0, start, words, skip, is16, n + 1), Addr(start, n)), is16)
                       == Masked(words[n], is16)
  {
  }

  /** After value `n` of a write, either the run of verified values is one
      longer or the write has its outcome. */
  lemma ProgramAdvance(mem0: seq<u16>, start: Address, words: seq<u16>, skip: bool, is16: bool, verify: bool,
                       st: StatusLog, n: nat, ok: bool, mem: seq<u16>, address: Address)
    requires n < |words| && mem == Programmed(mem0, start, words, skip, is16, n + 1)
    requires forall k :: 0 <= k < n ==> StepOk(mem0, start, words, skip, is16, verify, st, k)
    requires ok == StepOk(mem0, start, words, skip, is16, verify, st, n)
    requires address == if ok then Addr(start, n + 1) else Addr(start, n)
    ensures ok ==> forall k :: 0 <= k < n + 1 ==> StepOk(mem0, start, words, skip, is16, verify, st, k)
    ensures !ok ==> ProgramOutcome(mem0, start, words, skip, is16, verify, st, false, mem, address)
  {
    if ok {
      StepsExtend(mem0, start, words, skip, is16, verify, st, n);
    } else {
      ProgramFails(mem0, start, words, skip, is16, verify, st, n, mem, address);
    }
  }

  /** One more value that verifies extends the run of verified values. */
  lemma StepsExtend(mem0: seq<u16>, start: Address, words: seq<u16>, skip: bool, is16: bool, verify: bool,
                    st: StatusLog, n: nat)
    requires n < |words|
    requires forall k :: 0 <= k < n ==> StepOk(mem0, start, words, skip, is16, verify, st, k)
    requires StepOk(mem0, start, words, skip, is16, verify, st, n)
    ensures forall k :: 0 <= k < n + 1 ==> StepOk(mem0, start, words, skip, is16, verify, st, k)
  {
  }

  /** The result of comparing `words` with the cells from `start` on: true
      iff every value matches; then the address has moved past them,
      otherwise the comparison stopped at the first value that does not. */
  predicate MatchOutcome(mem: seq<u16>, start: Address, words: seq<u16>, is16: bool, ok: bool, address: Address)
  {
    (ok <==> forall k :: 0 <= k < |words| ==> Matches(mem, start, words, is16, k))
    && (ok ==> address == Addr(start, |words|))
    && (!ok ==> exists j :: 0 <= j < |words| && !Matches(mem, start, words, is16, j)
                            && (forall k :: 0 <= k < j ==> Matches(mem, start, words, is16, k))
                            && address == Addr(start, j))
  }

  /** A comparison that stops at value `n` has this outcome. */
  lemma MatchFails(mem: seq<u16>, start: Address, words: seq<u16>, is16: bool, n: nat, address: Address)
    requires n < |words| && address == Addr(start, n)
    requires forall k :: 0 <= k < n ==> Matches(mem, start, words, is16, k)
    requires !Matches(mem, start, words, is16, n)
    ensures MatchOutcome(mem, start, words, is16, false, address)
  {
  }

  /** One more match extends the run of matching values. */
  lemma MatchExtend(mem: seq<u16>, start: Address, words: seq<u16>, is16: bool, n: nat)
    requires n < |words|
    requires forall k :: 0 <= k < n ==> Matches(mem, start, words, is16, k)
    requires Matches(mem, start, words, is16, n)
    ensures forall k :: 0 <= k < n + 1 ==> Matches(mem, start, words, is16, k)
  {
  }

  /** A comparison that matches every value has this outcome. */
  lemma MatchSucceeds(mem: seq<u16>, start: Address, words: seq<u16>, is16: bool, address: Address)
    requires address == Addr(start, |words|)
    requires forall k :: 0 <= k < |words| ==> Matches(mem, start, words, is16, k)
    ensures MatchOutcome(mem, start, words, is16, true, address)
  {
  }

  /** The identifier `getId` reports: manufacturer in the high half,
      device in the low half. */
  function IdOf(manufacturer: u16, device: u16): u32
  {
    (manufacturer as u32 << 16) | (device as u32)
  }

  /** Each half of an identifier gives back its part. */
  lemma IdFields(manufacturer: u16, device: u16)
    ensures ((IdOf(manufacturer, device) >> 16) & 0xFFFF) as u16 == manufacturer
    ensures (IdOf(manufacturer, device) & 0xFFFF) as u16 == device
  {
  }

  /** `read` yields, for cell `k`, its high byte then its low byte in
      16-bit mode and its low byte otherwise. */
  lemma {:induction false} ReadImageCell(mem: seq<u16>, start: Address, count: nat, is16: bool, k: nat)
    requires k < count
    ensures var w := if is16 then 2 else 1;
            var v := Masked(Cell(mem, Addr(start, k)), is16);
            |ReadImage(mem, start, count, is16)| == w * count
            && ReadImage(mem, start, count, is16)[w * k .. w * k + w] == CellBytes(v, is16)
  {
    var w := if is16 then 2 else 1;
    ReadImageLength(mem, start, count, is16);
    if k < count - 1 {
      ReadImageCell(mem, start, count - 1, is16, k);
      var prev := ReadImage(mem, start, count - 1, is16);
      assert ReadImage(mem, start, count, is16)[w * k .. w * k + w] == prev[w * k .. w * k + w];
    } else {
      ReadImageLength(mem, start, count - 1, is16);
    }
  }

  lemma {:induction false} ReadImageLength(mem: seq<u16>, start: Address, count: nat, is16: bool)
    ensures |ReadImage(mem, start, count, is16)| == (if is16 then 2 else 1) * count
  {
    if count > 0 {
      ReadImageLength(mem, start, count - 1, is16);
    }
  }

  /** A write stores every value that is not skipped: when no later value
      goes to the same address, the cell of value `k` holds it. */
  lemma {:induction false} ProgrammedCell(mem: seq<u16>, start: Address, words: seq<u16>, skip: bool, is16: bool,
                                          n: nat, k: nat)
    requires k < n <= |words|
    requires !(skip && Empty(words[k], is16)) && Addr(start, k) < |mem|
    requires forall j :: k < j < n ==> Addr(start, j) != Addr(start, k)
    ensures Cell(Programmed(mem, start, words, skip, is16, n), Addr(start, k)) == Masked(words[k], is16)
  {
    if k < n - 1 {
      ProgrammedCell(mem, start, words, skip, is16, n - 1, k);
    }
  }

  /** A write changes no cell outside the addresses of the values it does
      not skip. */
  lemma {:induction false} ProgrammedKeeps(mem: seq<u16>, start: Address, words: seq<u16>, skip: bool, is16: bool,
                                           n: nat, a: Address)
    requires n <= |words|
    requires forall j :: 0 <= j < n && Addr(start, j) == a ==> skip && Empty(words[j], is16)
    ensures Cell(Programmed(mem, start, words, skip, is16, n), a) == Cell(mem, a)
  {
    if n > 0 {
      ProgrammedKeeps(mem, start, words, skip, is16, n - 1, a);
    }
  }

  /** A written value always verifies when its cell exists and no earlier
      step of the same write is at stake. */
  lemma WrittenVerifies(mem: seq<u16>, start: Address, words: seq<u16>, skip: bool, is16: bool, k: nat)
    requires k < |words| && !(skip && Empty(words[k], is16))
    requires Addr(start, k) < |mem|
    ensures StepVerifies(mem, start, words, skip, is16, true, k)
  {
  }

  /** A skipped value verifies iff its cell was already erased. */
  lemma SkippedVerifiesIffErased(mem: seq<u16>, start: Address, words: seq<u16>, skip: bool, is16: bool, k: nat)
    requires k < |words| && skip && Empty(words[k], is16)
    ensures StepVerifies(mem, start, words, skip, is16, true, k)
            <==> Empty(Masked(Cell(Programmed(mem, start, words, skip, is16, k), Addr(start, k)), is16), is16)
  {
  }

  class Device {
    var settings: Settings
    var address: Address
    var mem: seq<u16>
    const busOk: bool

    constructor (target: seq<u16>, busConfigured: bool)
      ensures settings == InitialSettings && address == 0 && mem == target && busOk == busConfigured
    {
      settings := InitialSettings;
      address := 0;
      mem := target;
      busOk := busConfigured;
    }

    method SetTwp(value: u32)
      modifies this`settings
      ensures settings == old(settings).(twp := value)
    {
      settings := settings.(twp := value);
    }

    method SetTwc(value: u32)
      modifies this`settings
      ensures settings == old(settings).(twc := value)
    {
      settings := settings.(twc := value);
    }

    method Configure(value: u16)
      modifies this`settings
      ensures settings == Configured(old(settings), value)
    {
      var flags := (value & 0xFF) as byte;
      var algo := ((value & 0xFF00) >> 8) as byte;
      settings := settings.(flags := Flags((flags & 0x01) != 0, (flags & 0x02) != 0, (flags & 0x04) != 0,
                                           (flags & 0x08) != 0, (flags & 0x10) != 0, (flags & 0x20) != 0),
                            algo := algo);
    }

    function Is16(): bool
      reads this`settings
    {
      settings.flags.is16bit
    }

    method AddrInc() returns (ok: bool)
      modifies this`address
      ensures ok == busOk && address == if busOk then Next(old(address)) else old(address)
    {
      if !busOk {
        return false;
      }
      address := Next(address);
      return true;
    }

    method AddrClr() returns (ok: bool)
      modifies this`address
      ensures ok == busOk && address == if busOk then 0 else old(address)
    {
      if !busOk {
        return false;
      }
      address := 0;
      return true;
    }

    method AddrSet(value: Address) returns (ok: bool)
      modifies this`address
      ensures ok == busOk && address == if busOk then value else old(address)
    {
      if !busOk {
        return false;
      }
      address := value;
      return true;
    }

    /** One read cycle: the cell at the current address as the bus carries
        it, or 0 when the data bus is not configured. */
    method ReadCell() returns (data: u16)
      ensures data == if busOk then Masked(Cell(mem, address), Is16()) else 0
    {
      if !busOk {
        return 0;
      }
      data := Masked(Cell(mem, address), Is16());
    }

    /** One write cycle at the current address; `status` is the byte the
        chip answers when the algorithm reads a status after the write. */
    method WriteCell(data: u16, status: byte) returns (ok: bool)
      modifies this`mem
      ensures ok == (busOk && StatusPasses(settings.algo, status))
      ensures mem == if busOk then Store(old(mem), address, Masked(data, Is16())) else old(mem)
    {
      if !busOk {
        return false;
      }
      mem := Store(mem, address, if Is16() then data else data & 0xFF);
      ok := true;
      if settings.algo == AlgoFlashI28F {
        ok := status & 0xFE == StatusOkI28F;
      }
    }

    /** Reads the cell at the current address and compares it with `data`,
        on the low byte only outside 16-bit mode. */
    method VerifyCell(data: u16) returns (ok: bool)
      ensures ok <==> (if busOk then Masked(Cell(mem, address), Is16()) else 0) == Masked(data, Is16())
    {
      var rd := ReadCell();
      var wr := data;
      if !Is16() {
        wr := wr & 0xFF;
        rd := rd & 0xFF;
      }
      ok := wr == rd;
    }

    /** Reads `count` cells from the current address on; empty when the
        address cannot be advanced. */
    method Read(count: nat) returns (result: seq<byte>)
      modifies this`address
      ensures count == 0 || !busOk ==> result == [] && address == old(address)
      ensures count > 0 && busOk ==> result == ReadImage(mem, old(address), count, Is16())
                                     && address == Addr(old(address), count)
    {
      result := [];
      if count == 0 {
        return;
      }
      var start := address;
      var i := 0;
      while i < count
        invariant 0 <= i <= count && address == Addr(start, i)
        invariant busOk ==> result == ReadImage(mem, start, i, Is16())
        invariant !busOk ==> i == 0 && result == []
      {
        var data := ReadCell();
        ghost var before := result;
        if Is16() {
          result := result + [((data & 0xFF00) >> 8) as byte, (data & 0xFF) as byte];
        } else {
          result := result + [(data & 0xFF) as byte];
        }
        assert result == before + CellBytes(data, Is16());
        assert busOk ==> result == ReadImage(mem, start, i + 1, Is16());
        var ok := AddrInc();
        if !ok {
          result := [];
          break;
        }
        AddrNext(start, i);
        i := i + 1;
      }
    }

    /** Writes the buffer from the current address on: a value is written
        unless `skipFF` is set and it is erased, is read back when `verify`
        is set, and the address advances after each; the first failure
        stops the write. `status` holds the status byte the chip answers
        after each written value (see `StatusByte`). */
    method Write(value: seq<byte>, count: nat, verify: bool, past: byte, status: seq<byte>) returns (ok: bool)
      modifies this`mem, this`address
      ensures Required(|value|, Is16()) < count ==> !ok && mem == old(mem) && address == old(address)
      ensures Required(|value|, Is16()) >= count && !busOk ==>
                ok == (|value| == 0) && mem == old(mem) && address == old(address)
      ensures Required(|value|, Is16()) >= count && busOk ==>
                ProgramOutcome(old(mem), old(address), Words(Padded(value, Is16(), past), Is16()),
                               settings.flags.skipFF, Is16(), verify, StatusLog(settings.algo, status),
                               ok, mem, address)
    {
      var is16 := Is16();
      if Required(|value|, is16) < count {
        return false;
      }
      ok := ProgramBuffer(Padded(value, is16, past), verify, status);
    }

    /** The loop of `write`, once the buffer has passed the size check,
        over the bytes it takes from the buffer (see `Padded`). */
    method ProgramBuffer(value: seq<byte>, verify: bool, status: seq<byte>) returns (ok: bool)
      requires Is16() ==> |value| % 2 == 0
      modifies this`mem, this`address
      ensures !busOk ==> ok == (|value| == 0) && mem == old(mem) && address == old(address)
      ensures busOk ==>
                ProgramOutcome(old(mem), old(address), Words(value, Is16()), settings.flags.skipFF, Is16(), verify,
                               StatusLog(settings.algo, status), ok, mem, address)
    {
      ghost var st := StatusLog(settings.algo, status);
      var is16 := Is16();
      var words := Words(value, is16);
      var skip := settings.flags.skipFF;
      var start := address;
      ghost var mem0 := mem;
      var increment := if is16 then 2 else 1;
      var i := 0;
      ghost var n := 0;
      ok := true;
      while i < |value|
        invariant 0 <= n <= |words| && i <= |value|
        invariant if is16 then i == 2 * n else i == n
        invariant ok && Is16() == is16 && settings.flags.skipFF == skip && st == StatusLog(settings.algo, status)
        invariant busOk ==> mem == Programmed(mem0, start, words, skip, is16, n) && address == Addr(start, n)
                            && forall k :: 0 <= k < n ==> StepOk(mem0, start, words, skip, is16, verify, st, k)
        invariant !busOk ==> i == 0 && mem == mem0 && address == start
        decreases |value| - i
      {
        ok := ProgramNext(value, i, verify, status, n, words, mem0, start);
        if busOk {
          ProgramAdvance(mem0, start, words, skip, is16, verify, st, n, ok, mem, address);
        }
        if !ok {
          break;
        }
        i := i + increment;
        n := n + 1;
      }
      if busOk && ok {
        assert n == |words|;
        ProgramSucceeds(mem0, start, words, skip, is16, verify, st, mem, address);
      }
    }

    /** Value `n` of `write`, at byte `i` of the buffer. */
    method ProgramNext(value: seq<byte>, i: nat, verify: bool, status: seq<byte>, ghost n: nat, ghost words: seq<u16>,
                       ghost mem0: seq<u16>, ghost start: Address) returns (ok: bool)
      requires i < |value| && words == Words(value, Is16())
      requires Is16() ==> |value| % 2 == 0 && i == 2 * n
      requires !Is16() ==> i == n
      requires busOk ==> mem == Programmed(mem0, start, words, settings.flags.skipFF, Is16(), n)
                         && address == Addr(start, n)
      modifies this`mem, this`address
      ensures n < |words|
      ensures busOk ==> mem == Programmed(mem0, start, words, settings.flags.skipFF, Is16(), n + 1)
      ensures busOk ==> ok == StepOk(mem0, start, words, settings.flags.skipFF, Is16(), verify,
                                     StatusLog(settings.algo, status), n)
      ensures busOk ==> address == if ok then Addr(start, n + 1) else Addr(start, n)
      ensures !busOk ==> !ok && mem == old(mem) && address == old(address)
    {
      var data, emptyData := FetchWord(value, i, Is16());
      assert n < |words| && data == words[n];
      var k := if Is16() then i / 2 else i;
      ok := ProgramStep(data, emptyData, settings.flags.skipFF, verify, StatusByte(StatusLog(settings.algo, status), k));
      ProgrammedNext(mem0, start, words, settings.flags.skipFF, Is16(), verify, n);
      AddrNext(start, n);
    }

    /** The value at byte `i` of a write or verify buffer, as the loops of
        `write` and `verify` assemble it, and whether it is erased. */
    static method FetchWord(value: seq<byte>, i: nat, is16: bool) returns (data: u16, emptyData: bool)
      requires i < |value| && (is16 ==> i % 2 == 0 && |value| % 2 == 0)
      ensures data == Words(value, is16)[if is16 then i / 2 else i]
      ensures emptyData == Empty(data, is16)
    {
      data := value[i] as u16 & 0xFF;
      emptyData := data == 0xFF;
      if is16 {
        data := (data << 8) | (value[i + 1] as u16 & 0xFF);
        emptyData := data == 0xFFFF;
        assert data == PairAt(value, i / 2);
      }
    }

    /** One value of `write`: its write cycle and status check unless it
        is skipped, its read-back when `verify` is set, then the address
        increment; false at the first of them that fails. */
    method ProgramStep(data: u16, emptyData: bool, skip: bool, verify: bool, status: byte) returns (ok: bool)
      requires emptyData == Empty(data, Is16())
      modifies this`mem, this`address
      ensures busOk ==> mem == Put(old(mem), old(address), data, skip, Is16())
      ensures busOk ==> (ok <==> ((skip && emptyData) || StatusPasses(settings.algo, status))
                                 && (!verify || Masked(Cell(mem, old(address)), Is16()) == Masked(data, Is16())))
      ensures busOk ==> address == if ok then Next(old(address)) else old(address)
      ensures !busOk ==> !ok && mem == old(mem) && address == old(address)
    {
      if !skip || !emptyData {
        var written := WriteCell(data, status);
        if !written {
          return false;
        }
      }
      if verify {
        var same := VerifyCell(data);
        if !same {
          return false;
        }
      }
      ok := AddrInc();
    }

    /** Compares the buffer with the cells from the current address on,
        stopping at the first mismatch. */
    method Verify(value: seq<byte>, count: nat, past: byte) returns (ok: bool)
      modifies this`address
      ensures Required(|value|, Is16()) < count ==> !ok && address == old(address)
      ensures Required(|value|, Is16()) >= count && !busOk ==> ok == (|value| == 0) && address == old(address)
      ensures Required(|value|, Is16()) >= count && busOk ==>
                MatchOutcome(mem, old(address), Words(Padded(value, Is16(), past), Is16()), Is16(), ok, address)
    {
      var is16 := Is16();
      if Required(|value|, is16) < count {
        return false;
      }
      var buf := Padded(value, is16, past);
      var words := Words(buf, is16);
      var start := address;
      var increment := if is16 then 2 else 1;
      var i := 0;
      ghost var n := 0;
      while i < |buf|
        invariant 0 <= n <= |words| && i <= |buf|
        invariant if is16 then i == 2 * n else i == n
        invariant Is16() == is16 && address == Addr(start, n)
        invariant busOk ==> forall k :: 0 <= k < n ==> Matches(mem, start, words, is16, k)
        invariant !busOk ==> i == 0
        decreases |buf| - i
      {
        var same := VerifyNext(buf, i, n, words, start);
        if !same {
          return false;
        }
        i := i + increment;
        n := n + 1;
      }
      if busOk {
        assert n == |words|;
        MatchSucceeds(mem, start, words, is16, address);
      }
      return true;
    }

    /** Value `n` of `verify`, at byte `i` of the buffer: its read-back
        compared, then the address increment. */
    method VerifyNext(buf: seq<byte>, i: nat, ghost n: nat, ghost words: seq<u16>, ghost start: Address)
      returns (ok: bool)
      requires i < |buf| && words == Words(buf, Is16())
      requires Is16() ==> |buf| % 2 == 0 && i == 2 * n
      requires !Is16() ==> i == n
      requires address == Addr(start, n)
      requires busOk ==> forall k :: 0 <= k < n ==> Matches(mem, start, words, Is16(), k)
      modifies this`address
      ensures n < |words|
      ensures !busOk ==> !ok && address == old(address)
      ensures ok ==> address == Addr(start, n + 1) && forall k :: 0 <= k < n + 1 ==> Matches(mem, start, words, Is16(), k)
      ensures !ok && busOk ==> MatchOutcome(mem, start, words, Is16(), false, address)
    {
      var data, _ := FetchWord(buf, i, Is16());
      assert n < |words| && data == words[n];
      var same := VerifyCell(data);
      if !same {
        if busOk {
          MatchFails(mem, start, words, Is16(), n, address);
        }
        return false;
      }
      assert busOk ==> Matches(mem, start, words, Is16(), n);
      ok := AddrInc();
      if !ok {
        return;
      }
      MatchExtend(mem, start, words, Is16(), n);
      AddrNext(start, n);
    }

    /** Checks `count` cells from the current address on for the erased
        value, stopping at the first that is not. */
    method BlankCheck(count: nat) returns (ok: bool)
      modifies this`address
      ensures !busOk ==> ok == (count == 0) && address == old(address)
      ensures busOk ==> MatchOutcome(mem, old(address), Blank(count), Is16(), ok, address)
    {
      var start := address;
      var i := 0;
      while i < count
        invariant 0 <= i <= count && address == Addr(start, i)
        invariant busOk ==> forall k :: 0 <= k < i ==> Matches(mem, start, Blank(count), Is16(), k)
        invariant !busOk ==> i == 0
      {
        var blank := VerifyCell(0xFFFF);
        if !blank {
          if busOk {
            assert !Matches(mem, start, Blank(count), Is16(), i);
            MatchFails(mem, start, Blank(count), Is16(), i, address);
          }
          return false;
        }
        assert busOk ==> Matches(mem, start, Blank(count), Is16(), i);
        var moved := AddrInc();
        if !moved {
          return false;
        }
        MatchExtend(mem, start, Blank(count), Is16(), i);
        AddrNext(start, i);
        i := i + 1;
      }
      if busOk {
        MatchSucceeds(mem, start, Blank(count), Is16(), address);
      }
      return true;
    }

    /** Reads the identifier: the chip's answers in identification mode
        (`manufacturerId`, `deviceId`) are rejected when the cells at
        0x200 and 0x201 hold the same values, since then they are plain
        memory contents; the address ends at 0. */
    method GetId(manufacturerId: u16, deviceId: u16, prev: u32) returns (ok: bool, id: u32)
      modifies this`address
      ensures var m := Masked(manufacturerId, Is16());
              var d := Masked(deviceId, Is16());
              ok <==> busOk && !(Masked(Cell(mem, 0x200), Is16()) == m && Masked(Cell(mem, 0x201), Is16()) == d)
      ensures ok ==> id == IdOf(Masked(manufacturerId, Is16()), Masked(deviceId, Is16()))
      ensures !ok ==> id == prev
      ensures address == if busOk then 0 else old(address)
    {
      id := prev;
      var setup := AddrClr();
      if !setup {
        return false, id;
      }
      ok := true;
      var manufacturer := Masked(manufacturerId, Is16());
      var moved := AddrInc();
      var device := Masked(deviceId, Is16());
      setup := AddrClr();
      var placed := AddrSet(0x200);
      var rd1 := ReadCell();
      assert rd1 == Masked(Cell(mem, 0x200), Is16());
      moved := AddrInc();
      var rd2 := ReadCell();
      assert rd2 == Masked(Cell(mem, 0x201), Is16());
      if rd1 == manufacturer && rd2 == device {
        ok := false;
      }
      if ok {
        id := manufacturer as u32;
        id := id << 16;
        id := id | device as u32;
        assert id == IdOf(manufacturer, device);
      }
      setup := AddrClr();
    }

    /** Erases the whole chip: the EPROM pulse or the flash erase command;
        any other algorithm fails and touches nothing. A successful erase
        leaves every cell erased. The Intel 28F command also needs the
        status byte the chip answers afterwards (`status`) to pass. The
        flash commands are written at the addresses of their command
        tables, which are not part of this model: `tableEnd` is the
        address of the last command cycle, where the address ends. */
    method Erase(status: byte, tableEnd: Address) returns (ok: bool)
      modifies this`address, this`mem
      ensures ok ==> mem == Blank(|old(mem)|)
      ensures !busOk ==> !ok && mem == old(mem) && address == old(address)
      ensures settings.algo == AlgoEPROM ==> ok == busOk && address == if busOk then 0 else old(address)
      ensures settings.algo in {AlgoFlash28F, AlgoFlashSST28SF, AlgoFlashAm28F} ==>
                ok == busOk && address == if busOk then tableEnd else old(address)
      ensures settings.algo == AlgoFlashI28F ==>
                ok == (busOk && StatusPasses(settings.algo, status)) && address == if busOk then tableEnd else old(address)
      ensures settings.algo !in {AlgoEPROM, AlgoFlash28F, AlgoFlashSST28SF, AlgoFlashAm28F, AlgoFlashI28F} ==>
                !ok && mem == old(mem) && address == old(address)
    {
      var algo := settings.algo;
      if algo == AlgoEPROM {
        ok := AddrClr();
      } else if algo == AlgoFlash28F || algo == AlgoFlashSST28SF || algo == AlgoFlashAm28F
             || algo == AlgoFlashI28F {
        if !busOk {
          return false;
        }
        address := tableEnd;
        ok := algo != AlgoFlashI28F || status & 0xFE == StatusOkI28F;
      } else {
        ok := false;
      }
      if ok {
        mem := Blank(|mem|);
      }
    }

    /** Sends the 28C64 or 28C256 software data protection sequence (or
        its disable sequence); any other algorithm fails. The sequence is
        written at the addresses of its command table, which is not part
        of this model: `tableEnd` is the address of its last command
        cycle, where the address ends. */
    method Protect(protect: bool, tableEnd: Address) returns (ok: bool)
      modifies this`address
      ensures ok == (busOk && settings.algo in {AlgoEEPROM28C64, AlgoEEPROM28C256})
      ensures address == if ok then tableEnd else old(address)
    {
      var algo := settings.algo;
      if algo == AlgoEEPROM28C64 || algo == AlgoEEPROM28C256 {
        if !busOk {
          return false;
        }
        address := tableEnd;
        ok := true;
      } else {
        ok := false;
      }
    }
  }
}
