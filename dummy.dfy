/** The host application's dummy parallel device: a byte buffer that
    stands for a chip, write-protected until unprotected, programmed,
    verified, erased and blank-checked cell by cell. Its shared settings
    (size, times, skip-0xFF and fast-program options) are those of the
    device base class, held here as the `device` part of the object. */
module Dummy {
  import opened Bytes
  import opened HostDevice

  /** How many cells an operation on `data` covers: the shorter of the
      data and the chip. */
  function End(data: seq<byte>, cells: seq<byte>): (r: nat)
    ensures r <= |data| && r <= |cells| && (r == |data| || r == |cells|)
  {
    if |data| < |cells| then |data| else |cells|
  }

  /** The cell `i` takes when `data` is programmed: the data byte, unless
      skip-0xFF is on and the data byte is 0xFF. */
  function ProgrammedCell(cells: seq<byte>, data: seq<byte>, skipFF: bool, i: nat): byte
    requires i < |cells| && i < |data|
  {
    if skipFF && data[i] == 0xFF then cells[i] else data[i]
  }

  /** The chip after programming `data`: the covered cells take the data,
      except 0xFF bytes under skip-0xFF; the cells beyond are kept. */
  function AfterProgram(cells: seq<byte>, data: seq<byte>, skipFF: bool): (r: seq<byte>)
    ensures |r| == |cells|
    ensures forall i :: 0 <= i < End(data, cells) && !(skipFF && data[i] == 0xFF) ==> r[i] == data[i]
    ensures forall i :: 0 <= i < End(data, cells) && skipFF && data[i] == 0xFF ==> r[i] == cells[i]
    ensures forall i :: End(data, cells) <= i < |cells| ==> r[i] == cells[i]
  {
    seq(|cells|, i requires 0 <= i < |cells| =>
      if i < End(data, cells) then ProgrammedCell(cells, data, skipFF, i) else cells[i])
  }

  /** The covered cells hold the data. */
  predicate PrefixMatches(data: seq<byte>, cells: seq<byte>)
  {
    forall i :: 0 <= i < End(data, cells) ==> data[i] == cells[i]
  }

  /** Every cell is erased. */
  predicate Blank(cells: seq<byte>)
  {
    forall i :: 0 <= i < |cells| ==> cells[i] == 0xFF
  }

  function Erased(n: nat): (r: seq<byte>)
    ensures |r| == n && Blank(r)
  {
    seq(n, i => ErasedByte())
  }

  function ErasedByte(): byte
  {
    0xFF
  }

  /** Without skip-0xFF, programming makes the covered cells verify. */
  lemma ProgramThenVerify(cells: seq<byte>, data: seq<byte>)
    ensures PrefixMatches(data, AfterProgram(cells, data, false))
  {
  }

  /** With skip-0xFF, the covered cells verify exactly when every 0xFF
      byte of the data already sits on an erased cell. */
  lemma SkipThenVerify(cells: seq<byte>, data: seq<byte>)
    ensures PrefixMatches(data, AfterProgram(cells, data, true)) <==>
            forall i :: 0 <= i < End(data, cells) && data[i] == 0xFF ==> cells[i] == 0xFF
  {
    var r := AfterProgram(cells, data, true);
    assert End(data, r) == End(data, cells);
    if PrefixMatches(data, r) {
      forall i | 0 <= i < End(data, cells) && data[i] == 0xFF
        ensures cells[i] == 0xFF
      {
        assert r[i] == cells[i];
      }
    }
  }

  /** Programming the same data twice changes nothing the second time. */
  lemma ProgramIdempotent(cells: seq<byte>, data: seq<byte>, skipFF: bool)
    ensures AfterProgram(AfterProgram(cells, data, skipFF), data, skipFF) == AfterProgram(cells, data, skipFF)
  {
    var once := AfterProgram(cells, data, skipFF);
    var twice := AfterProgram(once, data, skipFF);
    assert End(data, once) == End(data, cells);
    assert forall i :: 0 <= i < |cells| ==> twice[i] == once[i];
  }

  class Dummy {
    /** The settings the dummy shares with every device. */
    const device: Device
    /** The chip's cells. */
    var buffer: seq<byte>
    var protected: bool

    /** A write-protected dummy of 2048 cells with the given contents and
        1000 and 2000 us program and cycle times. The cells of the real
        dummy are random. */
    constructor (noise: seq<byte>)
      requires |noise| == 2048
      ensures protected && buffer == noise
      ensures device.size == 2048 && device.twp == 1000 && device.twc == 2000
      ensures !device.skipFF && !device.fastProg
    {
      var d := new Device();
      d.SetTwp(1000);
      d.SetTwc(2000);
      d.SetSize(2048);
      device := d;
      protected := true;
      buffer := noise;
    }

    /** `setSize`: the device size follows the base class rule (zero is
        ignored), while the buffer always takes the new size, filled with
        the given bytes in place of random ones. */
    method SetSize(value: U32, noise: seq<byte>)
      requires |noise| == value
      modifies this`buffer, device`size
      ensures value != 0 ==> device.size == value
      ensures value == 0 ==> device.size == old(device.size)
      ensures buffer == noise
    {
      device.SetSize(value);
      buffer := noise;
    }

    /** `getId`: always manufacturer 0x01, device 0x01. */
    method GetId() returns (ok: bool, id: DeviceId)
      ensures ok && id == DeviceId(0x01, 0x01)
    {
      id := DeviceId(0x01, 0x01);
      ok := true;
    }

    /** `read`: a copy of the cells. */
    method Read() returns (ok: bool, data: seq<byte>)
      ensures ok && data == buffer
    {
      data := [];
      var i := 0;
      while i < |buffer|
        invariant 0 <= i <= |buffer| && data == buffer[..i]
      {
        data := data + [buffer[i]];
        i := i + 1;
      }
      ok := true;
    }

    /** `program`: refused while protected; otherwise the covered cells are
        programmed and, if asked, verified. */
    method Program(data: seq<byte>, verify: bool) returns (ok: bool)
      modifies this`buffer
      ensures protected ==> !ok && buffer == old(buffer)
      ensures !protected ==> buffer == AfterProgram(old(buffer), data, device.skipFF)
      ensures !protected ==> (ok <==> !verify || PrefixMatches(data, buffer))
    {
      var end := End(data, buffer);
      if protected {
        return false;
      }
      var i := 0;
      while i < end
        invariant 0 <= i <= end && |buffer| == |old(buffer)| && end == End(data, old(buffer))
        invariant forall k :: 0 <= k < i ==> buffer[k] == ProgrammedCell(old(buffer), data, device.skipFF, k)
        invariant forall k :: i <= k < |buffer| ==> buffer[k] == old(buffer)[k]
      {
        if device.skipFF && data[i] == 0xFF {
          i := i + 1;
          continue;
        }
        if device.fastProg && buffer[i] == data[i] {
          i := i + 1;
          continue;
        }
        buffer := buffer[i := data[i]];
        i := i + 1;
      }
      assert buffer == AfterProgram(old(buffer), data, device.skipFF);
      if verify {
        ok := Verify(data);
        return;
      }
      ok := true;
    }

    /** `verify`: true exactly when the covered cells hold the data; it
        stops at the first mismatch. */
    method Verify(data: seq<byte>) returns (ok: bool)
      ensures ok <==> PrefixMatches(data, buffer)
    {
      var end := End(data, buffer);
      var i := 0;
      while i < end
        invariant 0 <= i <= end
        invariant forall k :: 0 <= k < i ==> data[k] == buffer[k]
      {
        if data[i] != buffer[i] {
          return false;
        }
        i := i + 1;
      }
      return true;
    }

    /** `erase`: refused while protected; otherwise every cell becomes 0xFF
        and, if asked, the chip is blank-checked, which then passes. */
    method Erase(check: bool) returns (ok: bool)
      modifies this`buffer
      ensures protected ==> !ok && buffer == old(buffer)
      ensures !protected ==> buffer == Erased(|old(buffer)|) && ok
    {
      var end := |buffer|;
      if protected {
        return false;
      }
      var i := 0;
      while i < end
        invariant 0 <= i <= end && |buffer| == end
        invariant forall k :: 0 <= k < i ==> buffer[k] == 0xFF
      {
        if device.fastProg && buffer[i] == 0xFF {
          i := i + 1;
          continue;
        }
        buffer := buffer[i := 0xFF];
        i := i + 1;
      }
      assert buffer == Erased(end);
      if check {
        ok := BlankCheck();
        return;
      }
      ok := true;
    }

    /** `blankCheck`: true exactly when every cell is 0xFF. */
    method BlankCheck() returns (ok: bool)
      ensures ok <==> Blank(buffer)
    {
      var i := 0;
      while i < |buffer|
        invariant 0 <= i <= |buffer|
        invariant forall k :: 0 <= k < i ==> buffer[k] == 0xFF
      {
        if buffer[i] != 0xFF {
          return false;
        }
        i := i + 1;
      }
      return true;
    }

    /** `unprotect`: fails on an unprotected chip; otherwise lifts the
        protection. */
    method Unprotect() returns (ok: bool)
      modifies this`protected
      ensures ok == old(protected) && !protected
    {
      if !protected {
        return false;
      }
      protected := false;
      ok := true;
    }
  }
}
