/** The host application's device base class: the settings every
    programmable device shares, with setters that ignore a zero size or
    time, and the default operations a device without its own inherits.
    The default `verify`, `program` and `erase` call the device's own
    `read` and `blankCheck`; those results are parameters here. */
module HostDevice {
  import opened Bytes

  /** A `uint32_t`. */
  type U32 = n: int | 0 <= n < 0x1_0000_0000
  /** A `uint16_t`. */
  type U16 = n: int | 0 <= n < 0x1_0000

  /** A manufacturer and device code pair. */
  datatype DeviceId = DeviceId(manufacturer: byte, device: byte)

  class Device {
    var port: string
    var size: U32
    var twp: U32
    var twc: U32
    var skipFF: bool
    var fastProg: bool
    var sectorSize: U16

    /** No port, size 0, 1 us program and cycle times, both options off
        and no sectors. */
    constructor ()
      ensures port == "" && size == 0 && twp == 1 && twc == 1
      ensures !skipFF && !fastProg && sectorSize == 0
    {
      port, size, twp, twc := "", 0, 1, 1;
      skipFF, fastProg, sectorSize := false, false, 0;
    }

    method SetPort(path: string)
      modifies this`port
      ensures port == path
    {
      if port == path {
        return;
      }
      port := path;
    }

    /** `setSize`: a zero size is ignored. */
    method SetSize(value: U32)
      modifies this`size
      ensures value != 0 ==> size == value
      ensures value == 0 ==> size == old(size)
    {
      if size == value {
        return;
      }
      if value != 0 {
        size := value;
      }
    }

    /** `setTwp`: a zero time is ignored. */
    method SetTwp(us: U32)
      modifies this`twp
      ensures us != 0 ==> twp == us
      ensures us == 0 ==> twp == old(twp)
    {
      if twp == us {
        return;
      }
      if us != 0 {
        twp := us;
      }
    }

    /** `setTwc`: a zero time is ignored. */
    method SetTwc(us: U32)
      modifies this`twc
      ensures us != 0 ==> twc == us
      ensures us == 0 ==> twc == old(twc)
    {
      if twc == us {
        return;
      }
      if us != 0 {
        twc := us;
      }
    }

    method SetSkipFF(value: bool)
      modifies this`skipFF
      ensures skipFF == value
    {
      if skipFF == value {
        return;
      }
      skipFF := value;
    }

    method SetFastProg(value: bool)
      modifies this`fastProg
      ensures fastProg == value
    {
      if fastProg == value {
        return;
      }
      fastProg := value;
    }

    /** `setSectorSize`: the guard tests the current sector size, not the
        new one, so a device whose sector size is 0 keeps 0 whatever is
        set, and a non-zero size can be set to any value, 0 included. */
    method SetSectorSize(value: U16)
      modifies this`sectorSize
      ensures old(sectorSize) == 0 ==> sectorSize == 0
      ensures old(sectorSize) != 0 ==> sectorSize == value
    {
      if sectorSize == value {
        return;
      }
      if sectorSize != 0 {
        sectorSize := value;
      }
    }
  }

  /** The default `read`: no data and failure. */
  function DefaultRead(): (r: Option<seq<byte>>)
    ensures r.None?
  {
    None
  }

  /** The default `verify` given what the device's `read` returned: true
      exactly when the read succeeded with the buffer's bytes. */
  function DefaultVerify(buffer: seq<byte>, read: Option<seq<byte>>): (r: bool)
    ensures r <==> read.Some? && read.value == buffer
  {
    match read
    case None => false
    case Some(data) => data == buffer
  }

  /** The default `program`: it cannot write, so only the verification it
      is asked for can succeed. */
  function DefaultProgram(buffer: seq<byte>, verify: bool, read: Option<seq<byte>>): (r: bool)
    ensures r <==> verify && read == Some(buffer)
  {
    if verify then DefaultVerify(buffer, read) else false
  }

  /** The default `erase`: it cannot erase, so only the blank check it is
      asked for can succeed. */
  function DefaultErase(check: bool, blank: bool): (r: bool)
    ensures r <==> check && blank
  {
    if check then blank else false
  }

  /** A device that keeps the default `read` never verifies, and so never
      programs. */
  lemma DefaultsFail(buffer: seq<byte>, verify: bool)
    ensures !DefaultVerify(buffer, DefaultRead())
    ensures !DefaultProgram(buffer, verify, DefaultRead())
  {
  }
}
