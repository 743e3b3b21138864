/** The host-side test emulator of the programmer: it answers the same
    calls as the serial link to the firmware, and drives an emulated chip
    through its address bus, data bus and control pins. Every call that
    needs the link first checks that the port is open, no earlier call
    failed and a chip is attached; otherwise it records the error, which
    then sticks until the port is opened or closed again. The attached
    chip is reduced to its cells: a write cycle stores the data bus value
    at the current address, a read returns the cell there (all lines high
    beyond the chip), and the pin and supply sequencing around them is
    left out. */
module Emulator {
  import opened Bytes
  import opened FwDevice

  const MaxBufferSize: nat := 128

  /** The buffer sizes the emulator accepts: the powers of two a `uint8_t`
      holds. */
  predicate IsBufferSize(v: nat)
  {
    v == 1 || v == 2 || v == 4 || v == 8 || v == 16 || v == 32 || v == 64 || v == 128
  }

  /** The test `value & (value - 1)` of `setBufferSize`: true for a
      non-zero byte exactly when it is not a power of two. */
  predicate NotPowerOfTwo(v: byte)
  {
    v & (v - 1) != 0
  }

  lemma NotPowerOfTwoMeaning(v: byte)
    ensures NotPowerOfTwo(v) <==> v != 0 && !(v == 1 || v == 2 || v == 4 || v == 8 || v == 16 || v == 32 || v == 64 || v == 128)
  {
  }

  /** The least power of two that holds `value` bytes (one for zero),
      capped at 128. */
  function RoundedSize(value: nat): (r: nat)
    requires value < 256
    ensures IsBufferSize(r)
    ensures value <= MaxBufferSize ==> value <= r && (value == 0 || r < 2 * value)
    ensures value > MaxBufferSize ==> r == MaxBufferSize
  {
    if value <= 1 then 1
    else if value <= 2 then 2
    else if value <= 4 then 4
    else if value <= 8 then 8
    else if value <= 16 then 16
    else if value <= 32 then 32
    else if value <= 64 then 64
    else 128
  }

  /** The exponent the rounding loop of `setBufferSize` stops at gives the
      rounded size, once capped at 7. */
  lemma RoundedByExponent(v: nat, exp: nat)
    requires 2 < v < 256 && 1 <= exp <= 8 && Pow2(exp - 1) < v <= Pow2(exp)
    ensures Pow2(if exp > 7 then 7 else exp) == RoundedSize(v)
  {
    Pow2Values();
    if exp == 1 {
    } else if exp == 2 {
    } else if exp == 3 {
    } else if exp == 4 {
    } else if exp == 5 {
    } else if exp == 6 {
    } else if exp == 7 {
    } else {
      assert exp == 8;
    }
  }

  /** No smaller buffer size holds `value` bytes. */
  lemma RoundedSizeLeast(value: nat, p: nat)
    requires value < 256 && IsBufferSize(p) && value <= p
    ensures RoundedSize(value) <= p
  {
  }

  /** The size `setBufferSize` keeps: the rounded size, and at least two
      bytes (one word) in 16-bit mode. */
  function BufferSizeFor(value: nat, is16: bool): (r: nat)
    requires value < 256
    ensures IsBufferSize(r) && (is16 ==> r >= 2)
    ensures !is16 ==> r == RoundedSize(value)
    ensures is16 ==> r == if RoundedSize(value) == 1 then 2 else RoundedSize(value)
  {
    var r := RoundedSize(value);
    if is16 && r == 1 then 2 else r
  }

  /** A size that is already a buffer size is kept outside 16-bit mode. */
  lemma BufferSizeKept(value: nat, is16: bool)
    requires value < 256 && IsBufferSize(value) && (is16 ==> value >= 2)
    ensures BufferSizeFor(value, is16) == value
  {
  }

  const NoFlags := Flags(false, false, false, false, false, false)

  class Emulator {
    var running: bool
    var error: bool
    var path: string
    var address: Address
    var bufferSize: nat
    var flags: Flags
    var algo: byte
    var twp: nat
    var twc: nat
    /** The cells of the attached chip. */
    var mem: seq<u16>
    /** Whether a chip is attached. */
    const hasChip: bool

    /** The buffer size is always one `setBufferSize` can produce. */
    predicate Valid()
      reads this
    {
      IsBufferSize(bufferSize) && (flags.is16bit ==> bufferSize >= 2)
    }

    /** The check that starts every call driving the chip. */
    predicate Blocked()
      reads this
    {
      error || !running || !hasChip
    }

    function Is16(): bool
      reads this`flags
    {
      flags.is16bit
    }

    constructor (chipAttached: bool, cells: seq<u16>)
      ensures Valid() && !running && !error && path == []
      ensures address == 0 && bufferSize == 1 && flags == NoFlags && algo == AlgoUnknown
      ensures twp == 1 && twc == 1 && mem == cells && hasChip == chipAttached
    {
      running, error, path := false, false, [];
      address, bufferSize := 0, 1;
      flags, algo := NoFlags, AlgoUnknown;
      twp, twc := 1, 1;
      mem, hasChip := cells, chipAttached;
    }

    /** Closes the port if open, then opens `p`; no path, no port. Opening
        clears the error. */
    method Open(p: string) returns (ok: bool)
      modifies this`running, this`error, this`path
      ensures ok == (p != [])
      ensures ok ==> running && !error && path == p
      ensures !ok && old(running) ==> !running && !error && path == []
      ensures !ok && !old(running) ==> running == old(running) && error == old(error) && path == old(path)
    {
      if running {
        Close();
      }
      if p == [] {
        return false;
      }
      path := p;
      running := true;
      error := false;
      return true;
    }

    /** Closes the port and clears the error. */
    method Close()
      modifies this`running, this`error, this`path
      ensures !running && !error && path == []
    {
      running := false;
      error := false;
      path := [];
    }

    /** The no-op call: fails, and records the failure, when the port is
        closed or an earlier call failed. */
    method Nop() returns (ok: bool)
      modifies this`error
      ensures ok <==> !old(error) && running
      ensures error == !ok
    {
      if error || !running {
        error := true;
        return false;
      }
      return true;
    }

    /** Sets the address register to 0. */
    method AddrClr() returns (ok: bool)
      modifies this`error, this`address
      ensures ok == !old(Blocked()) && error == !ok
      ensures address == if ok then 0 else old(address)
    {
      if Blocked() {
        error := true;
        return false;
      }
      address := 0;
      return true;
    }

    /** Adds one to the address register, wrapping at 32 bits. */
    method AddrInc() returns (ok: bool)
      modifies this`error, this`address
      ensures ok == !old(Blocked()) && error == !ok
      ensures address == if ok then Next(old(address)) else old(address)
    {
      if Blocked() {
        error := true;
        return false;
      }
      address := Next(address);
      return true;
    }

    /** Sets the address register; address 0 goes through `addrClr`. */
    method AddrSet(value: Address) returns (ok: bool)
      modifies this`error, this`address
      ensures ok == !old(Blocked()) && error == !ok
      ensures address == if ok then value else old(address)
    {
      if value == 0 {
        ok := AddrClr();
        return;
      }
      if Blocked() {
        error := true;
        return false;
      }
      address := value;
      return true;
    }

    /** Rounds the requested size to a power of two up to 128 (0 counts as
        1), and keeps at least one word in 16-bit mode. */
    method SetBufferSize(value: byte)
      modifies this`bufferSize
      ensures Valid()
      ensures bufferSize == BufferSizeFor(value as nat, Is16())
    {
      var v := value;
      if v == 0 {
        v := 1;
      }
      NotPowerOfTwoMeaning(v);
      var size := v as nat;
      if NotPowerOfTwo(v) {
        size := NextPowerOfTwo(size);
      }
      if Is16() && size == 1 {
        size := 2;
      }
      bufferSize := size;
    }

    /** The rounding loop of `setBufferSize`: the least power of two from
        2 on that holds `v`, capped at 128. */
    static method NextPowerOfTwo(v: nat) returns (size: nat)
      requires 2 < v < 256 && !IsBufferSize(v)
      ensures size == RoundedSize(v)
    {
      Pow2Values();
      var exp := 1;
      while Pow2(exp) < v
        invariant 1 <= exp <= 8
        invariant Pow2(exp - 1) < v
      {
        exp := exp + 1;
      }
      RoundedByExponent(v, exp);
      if exp > 7 {
        exp := 7;
      }
      size := Pow2(exp);
    }

    /** Stores the algorithm and the flags; in 16-bit mode a one-byte
        buffer grows to one word. */
    method DeviceConfigure(a: byte, f: Flags) returns (ok: bool)
      requires Valid()
      modifies this`flags, this`algo, this`bufferSize
      ensures ok && Valid() && flags == f && algo == a
      ensures bufferSize == if f.is16bit && old(bufferSize) == 1 then 2 else old(bufferSize)
    {
      flags := f;
      algo := a;
      if f.is16bit && bufferSize == 1 {
        SetBufferSize(2);
      }
      return true;
    }

    /** `deviceWrite_`: the write cycle of one value at the current
        address, skipped for an erased value when `skipFF` is set and not
        overridden. */
    method WriteCell(value: u16, disableSkipFF: bool) returns (success: bool)
      requires !Blocked()
      modifies this`mem
      ensures success
      ensures mem == Put(old(mem), address, value, flags.skipFF && !disableSkipFF, Is16())
    {
      var emptyData := if Is16() then value == 0xFFFF else value == 0xFF;
      if !flags.skipFF || !emptyData || disableSkipFF {
        if Is16() {
          mem := Store(mem, address, value);
        } else {
          mem := Store(mem, address, value & 0xFF);
        }
      }
      return true;
    }

    /** `deviceRead_`: the value on the data bus while the chip outputs
        the current cell; its low byte outside 16-bit mode. */
    method ReadCell() returns (data: u16)
      requires !Blocked()
      ensures data == Masked(Cell(mem, address), Is16())
    {
      if Is16() {
        data := Cell(mem, address);
      } else {
        data := Cell(mem, address) & 0xFF;
      }
    }

    /** Writes one buffer from the current address on, reading each value
        back and stopping at the first that does not verify. A buffer of a
        size other than the buffer size is refused. */
    method DeviceWrite(data: seq<byte>) returns (ok: bool)
      requires Valid()
      modifies this`mem, this`address, this`error
      ensures old(Blocked()) ==> !ok && error && mem == old(mem) && address == old(address)
      ensures !old(Blocked()) ==> !error
      ensures !old(Blocked()) && |data| != bufferSize ==> !ok && mem == old(mem) && address == old(address)
      ensures !old(Blocked()) && |data| == bufferSize ==>
                ProgramOutcome(old(mem), old(address), Words(data, Is16()), flags.skipFF, Is16(), true, Unchecked, ok, mem,
                               address)
    {
      if Blocked() {
        error := true;
        return false;
      }
      if |data| != bufferSize {
        return false;
      }
      assert Is16() ==> |data| % 2 == 0;
      ok := WriteBuffer(data);
    }

    /** The loop of `deviceWrite`. */
    method WriteBuffer(data: seq<byte>) returns (ok: bool)
      requires !Blocked() && (Is16() ==> |data| % 2 == 0)
      modifies this`mem, this`address, this`error
      ensures !Blocked()
      ensures ProgramOutcome(old(mem), old(address), Words(data, Is16()), flags.skipFF, Is16(), true, Unchecked, ok, mem,
                               address)
    {
      var is16 := Is16();
      var words := Words(data, is16);
      var skip := flags.skipFF;
      var start := address;
      ghost var mem0 := mem;
      var increment := if is16 then 2 else 1;
      var i := 0;
      ghost var n := 0;
      ok := true;
      while i < |data|
        invariant 0 <= n <= |words| && i <= |data|
        invariant if is16 then i == 2 * n else i == n
        invariant is16 ==> |data| % 2 == 0
        invariant !Blocked() && Is16() == is16 && flags.skipFF == skip
        invariant mem == Programmed(mem0, start, words, skip, is16, n) && address == Addr(start, n)
        invariant forall k :: 0 <= k < n ==> StepOk(mem0, start, words, skip, is16, true, Unchecked, k)
        decreases |data| - i
      {
        ok := WriteNext(data, i, n, words, mem0, start);
        if !ok {
          ProgramFails(mem0, start, words, skip, is16, true, Unchecked, n, mem, address);
          return;
        }
        StepsExtend(mem0, start, words, skip, is16, true, Unchecked, n);
        i := i + increment;
        n := n + 1;
      }
      assert n == |words|;
      ProgramSucceeds(mem0, start, words, skip, is16, true, Unchecked, mem, address);
    }

    /** Value `n` of `deviceWrite`, at byte `i` of the buffer. */
    method WriteNext(data: seq<byte>, i: nat, ghost n: nat, ghost words: seq<u16>, ghost mem0: seq<u16>,
                     ghost start: Address) returns (ok: bool)
      requires !Blocked() && i < |data| && words == Words(data, Is16())
      requires Is16() ==> |data| % 2 == 0 && i == 2 * n
      requires !Is16() ==> i == n
      requires mem == Programmed(mem0, start, words, flags.skipFF, Is16(), n) && address == Addr(start, n)
      modifies this`mem, this`address, this`error
      ensures !Blocked() && n < |words|
      ensures mem == Programmed(mem0, start, words, flags.skipFF, Is16(), n + 1)
      ensures ok == StepVerifies(mem0, start, words, flags.skipFF, Is16(), true, n)
      ensures address == if ok then Addr(start, n + 1) else Addr(start, n)
    {
      var wr, _ := Device.FetchWord(data, i, Is16());
      assert n < |words| && wr == words[n];
      ghost var before := mem;
      ok := WriteStep(wr);
      ProgrammedNext(mem0, start, words, flags.skipFF, Is16(), true, n);
      assert mem == Put(before, Addr(start, n), wr, flags.skipFF, Is16());
      AddrNext(start, n);
    }

    /** One value of `deviceWrite`: the write cycle, the read-back compared
        in the bus width, then the address increment. */
    method WriteStep(wr: u16) returns (ok: bool)
      requires !Blocked()
      modifies this`mem, this`address, this`error
      ensures !Blocked()
      ensures mem == Put(old(mem), old(address), wr, flags.skipFF, Is16())
      ensures ok <==> Masked(Cell(mem, old(address)), Is16()) == Masked(wr, Is16())
      ensures address == if ok then Next(old(address)) else old(address)
    {
      var written := WriteCell(wr, false);
      var rd := ReadCell();
      MaskedTwice(Cell(mem, address), Is16());
      if rd != Masked(wr, Is16()) {
        return false;
      }
      ok := AddrInc();
    }

    /** Checks one buffer of cells from the current address on for the
        erased value, stopping at the first that is not. */
    method DeviceBlankCheck() returns (ok: bool)
      requires Valid()
      modifies this`address, this`error
      ensures old(Blocked()) ==> !ok && error && address == old(address)
      ensures !old(Blocked()) ==> !error
      ensures !old(Blocked()) ==>
                MatchOutcome(mem, old(address), Blank(if Is16() then bufferSize / 2 else bufferSize), Is16(), ok, address)
    {
      if Blocked() {
        error := true;
        return false;
      }
      var is16 := Is16();
      var count := if is16 then bufferSize / 2 else bufferSize;
      var increment := if is16 then 2 else 1;
      var start := address;
      var i := 0;
      ghost var n := 0;
      while i < bufferSize
        invariant 0 <= n <= count && i <= bufferSize
        invariant if is16 then i == 2 * n else i == n
        invariant !Blocked() && Is16() == is16 && address == Addr(start, n)
        invariant forall k :: 0 <= k < n ==> Matches(mem, start, Blank(count), is16, k)
        decreases bufferSize - i
      {
        var rd := ReadCell();
        var wr: u16 := 0xFFFF;
        if !is16 {
          wr := wr & 0xFF;
        }
        if rd != wr {
          assert !Matches(mem, start, Blank(count), is16, n);
          MatchFails(mem, start, Blank(count), is16, n, address);
          return false;
        }
        assert Matches(mem, start, Blank(count), is16, n);
        MatchExtend(mem, start, Blank(count), is16, n);
        var _ := AddrInc();
        AddrNext(start, n);
        i := i + increment;
        n := n + 1;
      }
      MatchSucceeds(mem, start, Blank(count), is16, address);
      return true;
    }
  }
}
