/** The firmware's store in the microcontroller's own flash: a buffer is
    kept in the last sectors of the flash, padded to whole pages and
    erased in whole sectors. Sizes and offsets are the 32-bit `size_t` of
    the target, so their sums wrap. The flash is 2 MiB, programmed in
    256-byte pages and erased in 4096-byte sectors; erasing sets bytes to
    0xFF and programming stores the bytes given. */
module Flash {
  import opened Bytes

  const FlashSize: nat := 2 * 1024 * 1024
  const PageBytes: nat := 256
  const SectorBytes: nat := 4096
  const SizeLimit: nat := 0x1_0000_0000

  /** A value of the 32-bit `size_t`. */
  type SizeT = n: int | 0 <= n < 0x1_0000_0000

  /** A 32-bit `size_t` sum or difference. */
  function Wrap(x: int): SizeT
  {
    x % SizeLimit
  }

  /** `pageSize_`: `len` rounded up to whole 256-byte pages, in `size_t`
      arithmetic. */
  function PageSize(len: SizeT): (r: SizeT)
    ensures len + 255 < SizeLimit ==> r % 256 == 0 && len <= r < len + 256
  {
    Wrap(len + 256 - 1) / 256 * 256
  }

  /** `sectorSize_`: `len` rounded up to whole 4096-byte sectors, in
      `size_t` arithmetic. */
  function SectorSize(len: SizeT): (r: SizeT)
    ensures len + 4095 < SizeLimit ==> r % 4096 == 0 && len <= r < len + 4096
  {
    Wrap(len + 4096 - 1) / 4096 * 4096
  }

  /** No smaller multiple of the page size holds `len`. */
  lemma PageSizeLeast(len: SizeT, m: nat)
    requires len + 255 < SizeLimit && m % 256 == 0 && m >= len
    ensures PageSize(len) <= m
  {
  }

  /** No smaller multiple of the sector size holds `len`. */
  lemma SectorSizeLeast(len: SizeT, m: nat)
    requires len + 4095 < SizeLimit && m % 4096 == 0 && m >= len
    ensures SectorSize(len) <= m
  {
  }

  /** Where a block of `len` bytes starts when it ends at the end of the
      flash; for `len` beyond the flash size the subtraction wraps. */
  function Offset(len: SizeT): (r: SizeT)
    ensures len <= FlashSize ==> r == FlashSize - len && r + len == FlashSize
  {
    Wrap(FlashSize - len)
  }

  /** The range check of `write_`, `read_` and `verify_` as the code
      writes it, with the 32-bit sum. */
  predicate OutOfRangeAsWritten(offset: SizeT, len: SizeT)
  {
    Wrap(offset + len) > FlashSize
  }

  /** The range check meant: the block does not end inside the flash. */
  predicate OutOfRange(offset: SizeT, len: SizeT)
  {
    offset + len > FlashSize
  }

  /** A block of 3 MiB is placed at a wrapped offset, and the written
      check lets it through although it lies outside the flash. */
  lemma OutOfRangeAsWrittenCounterexample()
    ensures var len := 0x30_0000;
            SectorSize(PageSize(len)) == len
            && !OutOfRangeAsWritten(Offset(len), len) && OutOfRange(Offset(len), len)
  {
    var len := 0x30_0000;
    assert Wrap(len + 255) == 0x30_00FF;
    assert 0x30_00FF / 256 == 0x3000;
    assert PageSize(len) == len;
    assert Wrap(len + 4095) == 0x30_0FFF;
    assert 0x30_0FFF / 4096 == 0x300;
    assert SectorSize(len) == len;
    assert Wrap(FlashSize - len) == 0xFFF0_0000;
    assert Wrap(0xFFF0_0000 + len) == 0x20_0000;
  }

  /** Within the flash the two checks agree. */
  lemma OutOfRangeAgrees(offset: SizeT, len: SizeT)
    requires offset <= FlashSize && len <= FlashSize
    ensures OutOfRangeAsWritten(offset, len) == OutOfRange(offset, len)
  {
  }

  function Erased(n: nat): (r: seq<byte>)
    ensures |r| == n && AllEqual(r, 0xFF)
  {
    seq(n, k => ErasedByte())
  }

  function ErasedByte(): byte
  {
    0xFF
  }

  function Zeros(n: nat): (r: seq<byte>)
    ensures |r| == n && AllEqual(r, 0)
  {
    seq(n, k => ZeroByte())
  }

  function ZeroByte(): byte
  {
    0
  }

  /** A `write`, `read` or `verify` block is rejected: no buffer, no
      length, or a 32-bit end beyond the flash, as the code checks it. */
  predicate Rejected(buf: Option<seq<byte>>, offset: SizeT, len: SizeT)
  {
    buf.None? || len == 0 || OutOfRangeAsWritten(offset, len)
  }

  /** The block really lies in the flash. */
  predicate Inside(offset: SizeT, len: SizeT)
  {
    offset + len <= FlashSize
  }

  /** An address of the flash. */
  predicate InFlash(a: int)
  {
    0 <= a < FlashSize
  }

  /** The check meant rejects exactly the blocks with a byte beyond the
      flash. */
  lemma OutOfRangeExact(offset: SizeT, len: SizeT)
    requires len > 0
    ensures !OutOfRange(offset, len) <==> forall k :: offset <= k < offset + len ==> InFlash(k)
  {
    if OutOfRange(offset, len) {
      assert !InFlash(offset + len - 1);
    }
  }

  /** The flash after erasing the sectors from `offset` on that hold
      `len` bytes and programming `data` at `offset`. */
  function Programmed(contents: seq<byte>, data: seq<byte>, offset: nat): (r: seq<byte>)
    requires |data| + SectorBytes < SizeLimit && offset + SectorSize(|data|) <= |contents|
    ensures |r| == |contents|
    ensures r[offset .. offset + |data|] == data
    ensures r[..offset] == contents[..offset]
    ensures r[offset + SectorSize(|data|)..] == contents[offset + SectorSize(|data|)..]
  {
    var eraseLen := SectorSize(|data|);
    contents[..offset] + data + Erased(eraseLen - |data|) + contents[offset + eraseLen..]
  }

  class Flash {
    var contents: seq<byte>

    predicate Valid()
      reads this
    {
      |contents| == FlashSize
    }

    constructor (initial: seq<byte>)
      requires |initial| == FlashSize
      ensures Valid() && contents == initial
    {
      contents := initial;
    }

    /** `write_`: erases the sectors of the block and programs it, unless
        the block is rejected or its sectors end beyond the flash, both
        checked in 32-bit arithmetic. A block that passes those checks
        but wraps around lies outside the flash: what the SDK's erase and
        program do there is not part of this model, and the flash is then
        left as `outside` says. */
    method WriteRaw(buf: Option<seq<byte>>, offset: SizeT, len: SizeT, outside: seq<byte>)
      requires Valid() && (buf.Some? ==> len <= |buf.value|) && |outside| == FlashSize
      modifies this
      ensures Valid()
      ensures Rejected(buf, offset, len) || OutOfRangeAsWritten(offset, SectorSize(len)) ==>
                contents == old(contents)
      ensures !Rejected(buf, offset, len) && Inside(offset, len) && Inside(offset, SectorSize(len)) ==>
                contents == Programmed(old(contents), buf.value[..len], offset)
      ensures !(Rejected(buf, offset, len) || OutOfRangeAsWritten(offset, SectorSize(len)))
              && !(Inside(offset, len) && Inside(offset, SectorSize(len))) ==>
                contents == outside
    {
      if buf.None? || len == 0 || OutOfRangeAsWritten(offset, len) {
        return;
      }
      var eraseLen := SectorSize(len);
      if OutOfRangeAsWritten(offset, eraseLen) {
        return;
      }
      if offset + len <= FlashSize && offset + eraseLen <= FlashSize {
        contents := contents[..offset] + Erased(eraseLen) + contents[offset + eraseLen..];
        contents := contents[..offset] + buf.value[..len] + contents[offset + len..];
        assert contents == Programmed(old(contents), buf.value[..len], offset);
      } else {
        contents := outside;
      }
    }

    /** `read_`: the caller's buffer with its first `len` bytes replaced by
        the block, or unchanged when the block is rejected. A block that
        passes the 32-bit check but wraps around is copied from outside
        the flash, where the bytes found are `outside`. */
    function ReadRaw(buf: Option<seq<byte>>, offset: SizeT, len: SizeT, outside: seq<byte>): (r: Option<seq<byte>>)
      requires Valid() && (buf.Some? ==> len <= |buf.value|) && |outside| == len
      reads this
      ensures Rejected(buf, offset, len) ==> r == buf
      ensures !Rejected(buf, offset, len) ==>
                r.Some? && |r.value| == |buf.value| && r.value[len..] == buf.value[len..]
      ensures !Rejected(buf, offset, len) && Inside(offset, len) ==>
                r.value[..len] == contents[offset .. offset + len]
      ensures !Rejected(buf, offset, len) && !Inside(offset, len) ==> r.value[..len] == outside
    {
      if buf.None? || len == 0 || OutOfRangeAsWritten(offset, len) then buf
      else if offset + len <= FlashSize then Some(contents[offset .. offset + len] + buf.value[len..])
      else Some(outside + buf.value[len..])
    }

    /** `verify_`: false for a rejected block, otherwise whether the bytes
        `read_` copies equal the first `len` bytes of the buffer. */
    function VerifyRaw(buf: Option<seq<byte>>, offset: SizeT, len: SizeT, outside: seq<byte>): (r: bool)
      requires Valid() && (buf.Some? ==> len <= |buf.value|) && |outside| == len
      reads this
      ensures Rejected(buf, offset, len) ==> !r
      ensures !Rejected(buf, offset, len) && Inside(offset, len) ==>
                (r <==> contents[offset .. offset + len] == buf.value[..len])
      ensures !Rejected(buf, offset, len) && !Inside(offset, len) ==> (r <==> outside == buf.value[..len])
    {
      if buf.None? || len == 0 || OutOfRangeAsWritten(offset, len) then false
      else
        var tmp := ReadRaw(Some(Zeros(len)), offset, len, outside);
        assert tmp.value == tmp.value[..len];
        tmp.value == buf.value[..len]
    }

    /** Stores `data` at the end of the flash, padded with zeros to whole
        pages. A buffer larger than the flash passes the 32-bit checks and
        is erased and programmed outside the flash, which is then left as
        `outside` says. */
    method Write(data: seq<byte>, outside: seq<byte>)
      requires Valid() && |data| + SectorBytes < SizeLimit && |outside| == FlashSize
      modifies this
      ensures Valid()
      ensures |data| == 0 ==> contents == old(contents)
      ensures 0 < |data| <= FlashSize ==>
                var tmpLen := PageSize(|data|);
                contents == Programmed(old(contents), data + Zeros(tmpLen - |data|), Offset(SectorSize(tmpLen)))
      ensures |data| > FlashSize ==> contents == outside
    {
      var tmpLen := PageSize(|data|);
      var eraseLen := SectorSize(tmpLen);
      var offset := Offset(eraseLen);
      var tmpBuf := data + Zeros(tmpLen - |data|);
      assert tmpBuf[..tmpLen] == tmpBuf;
      Placement(|data|);
      WriteRaw(Some(tmpBuf), offset, tmpLen, outside);
    }

    /** Reads `len` bytes from where `write` of `len` bytes puts them. For
        `len` beyond the flash size they are copied from outside the
        flash, where the bytes found are `outside`. */
    function Read(len: SizeT, outside: seq<byte>): (r: seq<byte>)
      requires Valid() && len + SectorBytes < SizeLimit && |outside| == PageSize(len)
      reads this
      ensures |r| == len
      ensures 0 < len <= FlashSize ==>
                var offset := Offset(SectorSize(PageSize(len)));
                offset + len <= FlashSize && r == contents[offset .. offset + len]
      ensures len > FlashSize ==> r == outside[..len]
    {
      var tmpLen := PageSize(len);
      var offset := Offset(SectorSize(tmpLen));
      Placement(len);
      var tmp := ReadRaw(Some(Zeros(tmpLen)), offset, tmpLen, outside);
      assert 0 < len <= FlashSize ==> contents[offset .. offset + len] == tmp.value[..tmpLen][..len];
      tmp.value[..len]
    }

    /** Whether the bytes at the place `write` puts `data` equal it. For a
        buffer larger than the flash they are read from outside the
        flash, where the bytes found are `outside`. */
    function Verify(data: seq<byte>, outside: seq<byte>): (r: bool)
      requires Valid() && |data| + SectorBytes < SizeLimit && |outside| == |data|
      reads this
      ensures |data| == 0 ==> !r
      ensures 0 < |data| <= FlashSize ==>
                var offset := Offset(SectorSize(PageSize(|data|)));
                offset + |data| <= FlashSize && (r <==> contents[offset .. offset + |data|] == data)
      ensures |data| > FlashSize ==> (r <==> outside == data)
    {
      var tmpLen := PageSize(|data|);
      var offset := Offset(SectorSize(tmpLen));
      var tmpBuf := data + Zeros(tmpLen - |data|);
      assert tmpBuf[..|data|] == data;
      Placement(|data|);
      VerifyRaw(Some(tmpBuf), offset, |data|, outside)
    }
  }

  /** A buffer that fits the flash is placed so that its pages and
      sectors end exactly at the end of the flash. */
  lemma {:induction false} PlacementFits(len: SizeT)
    requires len <= FlashSize
    ensures var tmpLen := PageSize(len);
            var eraseLen := SectorSize(tmpLen);
            len <= tmpLen <= eraseLen <= FlashSize
            && Offset(eraseLen) + eraseLen == FlashSize
            && !OutOfRange(Offset(eraseLen), tmpLen)
            && SectorSize(tmpLen) == eraseLen
  {
    var tmpLen := PageSize(len);
    PageSizeLeast(len, FlashSize);
    SectorSizeLeast(tmpLen, FlashSize);
  }

  /** Where `write`, `read` and `verify` put a block of `len` bytes and
      its padded pages: inside the flash when it fits; beyond it, yet let
      through by every 32-bit check, when it does not. */
  lemma Placement(len: SizeT)
    requires len + SectorBytes < SizeLimit
    ensures var tmpLen := PageSize(len);
            var offset := Offset(SectorSize(tmpLen));
            len <= tmpLen
            && (len <= FlashSize ==> Inside(offset, tmpLen) && Inside(offset, SectorSize(tmpLen)))
            && (len > FlashSize ==>
                  offset > FlashSize
                  && !OutOfRangeAsWritten(offset, len) && !OutOfRangeAsWritten(offset, tmpLen)
                  && !OutOfRangeAsWritten(offset, SectorSize(tmpLen)))
  {
    if len <= FlashSize {
      PlacementFits(len);
    } else {
      PlacementBeyond(len, len);
      PlacementBeyond(len, PageSize(len));
    }
  }

  /** As written, a buffer larger than the flash is placed at a wrapped
      offset beyond it, and every 32-bit check it meets lets it through:
      the block of `k` bytes from that offset, for any `k` up to the
      padded length, and the sectors of the padded buffer. */
  lemma PlacementBeyond(len: SizeT, k: SizeT)
    requires FlashSize < len && len + SectorBytes < SizeLimit && len <= k <= PageSize(len)
    ensures var tmpLen := PageSize(len);
            var offset := Offset(SectorSize(tmpLen));
            offset > FlashSize && len <= tmpLen
            && !OutOfRangeAsWritten(offset, k)
            && !OutOfRangeAsWritten(offset, SectorSize(tmpLen))
  {
    var tmpLen := PageSize(len);
    assert tmpLen % 256 == 0 && len <= tmpLen < len + 256;
    assert Wrap(len + 255) == len + 255 && (len + 255) / 256 <= 16777200;
    assert tmpLen <= SizeLimit - 4096;
    var eraseLen := SectorSize(tmpLen);
    assert eraseLen % 4096 == 0 && tmpLen <= eraseLen < tmpLen + 4096;
    assert Wrap(tmpLen + 4095) == tmpLen + 4095 && (tmpLen + 4095) / 4096 <= 1048575;
    assert eraseLen <= SizeLimit - 4096;
    var offset := Offset(eraseLen);
    assert offset == SizeLimit + FlashSize - eraseLen;
    assert Wrap(offset + k) == offset + k - SizeLimit;
    assert Wrap(offset + eraseLen) == FlashSize;
  }

  /** Writing a non-empty buffer that fits the flash, then verifying or
      reading it back, gives the buffer. */
  lemma WriteThenRead(f: Flash, before: seq<byte>, data: seq<byte>, outside: seq<byte>, outsidePages: seq<byte>)
    requires f.Valid() && |before| == FlashSize && 0 < |data| <= FlashSize
    requires |outside| == |data| && |outsidePages| == PageSize(|data|)
    requires var tmpLen := PageSize(|data|);
             f.contents == Programmed(before, data + Zeros(tmpLen - |data|), Offset(SectorSize(tmpLen)))
    ensures f.Verify(data, outside)
    ensures f.Read(|data|, outsidePages) == data
  {
    var tmpLen := PageSize(|data|);
    var offset := Offset(SectorSize(tmpLen));
    PlacementFits(|data|);
    var tmpBuf := data + Zeros(tmpLen - |data|);
    assert f.contents[offset .. offset + tmpLen] == tmpBuf;
    assert f.contents[offset .. offset + |data|] == data by {
      assert f.contents[offset .. offset + |data|] == f.contents[offset .. offset + tmpLen][..|data|];
    }
  }
}
