/** The hex editor of the host application: a buffer of `size` bytes
    with its ADD16 and CRC-32 checksums and whether it is all 0xFF,
    recomputed whenever the buffer changes, plus resizing, filling,
    loading and the Delete and Backspace keys, which remove the selection
    and pad the buffer with 0xFF. The CRC-32 is the reflected table-driven
    CRC of polynomial 0xEDB88320, the 32-bit frame check sequence of
    section 8.1.1.6.2 of ITU-T V.42. */
module HexEditor {
  import opened Bytes

  const Poly: bv32 := 0xEDB8_8320

  /** One bit step of the reflected CRC. */
  function Round(c: bv32): bv32
  {
    if c & 1 == 1 then (c >> 1) ^ Poly else c >> 1
  }

  /** Eight bit steps: one byte's worth. */
  function Rounds8(c: bv32): bv32
  {
    Round(Round(Round(Round(Round(Round(Round(Round(c))))))))
  }

  /** The lookup table: entry `i` is `i` run through eight bit steps. */
  function Table(i: byte): bv32
  {
    Rounds8(i as bv32)
  }

  /** The table of the editor, entry by entry. */
  lemma TableEntries0()
    ensures Table(0x00) == 0x0000_0000
    ensures Table(0x01) == 0x7707_3096
    ensures Table(0x02) == 0xEE0E_612C
    ensures Table(0x03) == 0x9909_51BA
    ensures Table(0x04) == 0x076D_C419
    ensures Table(0x05) == 0x706A_F48F
    ensures Table(0x06) == 0xE963_A535
    ensures Table(0x07) == 0x9E64_95A3
    ensures Table(0x08) == 0x0EDB_8832
    ensures Table(0x09) == 0x79DC_B8A4
    ensures Table(0x0A) == 0xE0D5_E91E
    ensures Table(0x0B) == 0x97D2_D988
    ensures Table(0x0C) == 0x09B6_4C2B
    ensures Table(0x0D) == 0x7EB1_7CBD
    ensures Table(0x0E) == 0xE7B8_2D07
    ensures Table(0x0F) == 0x90BF_1D91
    ensures Table(0x10) == 0x1DB7_1064
    ensures Table(0x11) == 0x6AB0_20F2
    ensures Table(0x12) == 0xF3B9_7148
    ensures Table(0x13) == 0x84BE_41DE
    ensures Table(0x14) == 0x1ADA_D47D
    ensures Table(0x15) == 0x6DDD_E4EB
    ensures Table(0x16) == 0xF4D4_B551
    ensures Table(0x17) == 0x83D3_85C7
    ensures Table(0x18) == 0x136C_9856
    ensures Table(0x19) == 0x646B_A8C0
    ensures Table(0x1A) == 0xFD62_F97A
    ensures Table(0x1B) == 0x8A65_C9EC
    ensures Table(0x1C) == 0x1401_5C4F
    ensures Table(0x1D) == 0x6306_6CD9
    ensures Table(0x1E) == 0xFA0F_3D63
    ensures Table(0x1F) == 0x8D08_0DF5
  {
  }

  lemma TableEntries1()
    ensures Table(0x20) == 0x3B6E_20C8
    ensures Table(0x21) == 0x4C69_105E
    ensures Table(0x22) == 0xD560_41E4
    ensures Table(0x23) == 0xA267_7172
    ensures Table(0x24) == 0x3C03_E4D1
    ensures Table(0x25) == 0x4B04_D447
    ensures Table(0x26) == 0xD20D_85FD
    ensures Table(0x27) == 0xA50A_B56B
    ensures Table(0x28) == 0x35B5_A8FA
    ensures Table(0x29) == 0x42B2_986C
    ensures Table(0x2A) == 0xDBBB_C9D6
    ensures Table(0x2B) == 0xACBC_F940
    ensures Table(0x2C) == 0x32D8_6CE3
    ensures Table(0x2D) == 0x45DF_5C75
    ensures Table(0x2E) == 0xDCD6_0DCF
    ensures Table(0x2F) == 0xABD1_3D59
    ensures Table(0x30) == 0x26D9_30AC
    ensures Table(0x31) == 0x51DE_003A
    ensures Table(0x32) == 0xC8D7_5180
    ensures Table(0x33) == 0xBFD0_6116
    ensures Table(0x34) == 0x21B4_F4B5
    ensures Table(0x35) == 0x56B3_C423
    ensures Table(0x36) == 0xCFBA_9599
    ensures Table(0x37) == 0xB8BD_A50F
    ensures Table(0x38) == 0x2802_B89E
    ensures Table(0x39) == 0x5F05_8808
    ensures Table(0x3A) == 0xC60C_D9B2
    ensures Table(0x3B) == 0xB10B_E924
    ensures Table(0x3C) == 0x2F6F_7C87
    ensures Table(0x3D) == 0x5868_4C11
    ensures Table(0x3E) == 0xC161_1DAB
    ensures Table(0x3F) == 0xB666_2D3D
  {
  }

  lemma TableEntries2()
    ensures Table(0x40) == 0x76DC_4190
    ensures Table(0x41) == 0x01DB_7106
    ensures Table(0x42) == 0x98D2_20BC
    ensures Table(0x43) == 0xEFD5_102A
    ensures Table(0x44) == 0x71B1_8589
    ensures Table(0x45) == 0x06B6_B51F
    ensures Table(0x46) == 0x9FBF_E4A5
    ensures Table(0x47) == 0xE8B8_D433
    ensures Table(0x48) == 0x7807_C9A2
    ensures Table(0x49) == 0x0F00_F934
    ensures Table(0x4A) == 0x9609_A88E
    ensures Table(0x4B) == 0xE10E_9818
    ensures Table(0x4C) == 0x7F6A_0DBB
    ensures Table(0x4D) == 0x086D_3D2D
    ensures Table(0x4E) == 0x9164_6C97
    ensures Table(0x4F) == 0xE663_5C01
    ensures Table(0x50) == 0x6B6B_51F4
    ensures Table(0x51) == 0x1C6C_6162
    ensures Table(0x52) == 0x8565_30D8
    ensures Table(0x53) == 0xF262_004E
    ensures Table(0x54) == 0x6C06_95ED
    ensures Table(0x55) == 0x1B01_A57B
    ensures Table(0x56) == 0x8208_F4C1
    ensures Table(0x57) == 0xF50F_C457
    ensures Table(0x58) == 0x65B0_D9C6
    ensures Table(0x59) == 0x12B7_E950
    ensures Table(0x5A) == 0x8BBE_B8EA
    ensures Table(0x5B) == 0xFCB9_887C
    ensures Table(0x5C) == 0x62DD_1DDF
    ensures Table(0x5D) == 0x15DA_2D49
    ensures Table(0x5E) == 0x8CD3_7CF3
    ensures Table(0x5F) == 0xFBD4_4C65
  {
  }

  lemma TableEntries3()
    ensures Table(0x60) == 0x4DB2_6158
    ensures Table(0x61) == 0x3AB5_51CE
    ensures Table(0x62) == 0xA3BC_0074
    ensures Table(0x63) == 0xD4BB_30E2
    ensures Table(0x64) == 0x4ADF_A541
    ensures Table(0x65) == 0x3DD8_95D7
    ensures Table(0x66) == 0xA4D1_C46D
    ensures Table(0x67) == 0xD3D6_F4FB
    ensures Table(0x68) == 0x4369_E96A
    ensures Table(0x69) == 0x346E_D9FC
    ensures Table(0x6A) == 0xAD67_8846
    ensures Table(0x6B) == 0xDA60_B8D0
    ensures Table(0x6C) == 0x4404_2D73
    ensures Table(0x6D) == 0x3303_1DE5
    ensures Table(0x6E) == 0xAA0A_4C5F
    ensures Table(0x6F) == 0xDD0D_7CC9
    ensures Table(0x70) == 0x5005_713C
    ensures Table(0x71) == 0x2702_41AA
    ensures Table(0x72) == 0xBE0B_1010
    ensures Table(0x73) == 0xC90C_2086
    ensures Table(0x74) == 0x5768_B525
    ensures Table(0x75) == 0x206F_85B3
    ensures Table(0x76) == 0xB966_D409
    ensures Table(0x77) == 0xCE61_E49F
    ensures Table(0x78) == 0x5EDE_F90E
    ensures Table(0x79) == 0x29D9_C998
    ensures Table(0x7A) == 0xB0D0_9822
    ensures Table(0x7B) == 0xC7D7_A8B4
    ensures Table(0x7C) == 0x59B3_3D17
    ensures Table(0x7D) == 0x2EB4_0D81
    ensures Table(0x7E) == 0xB7BD_5C3B
    ensures Table(0x7F) == 0xC0BA_6CAD
  {
  }

  lemma TableEntries4()
    ensures Table(0x80) == 0xEDB8_8320
    ensures Table(0x81) == 0x9ABF_B3B6
    ensures Table(0x82) == 0x03B6_E20C
    ensures Table(0x83) == 0x74B1_D29A
    ensures Table(0x84) == 0xEAD5_4739
    ensures Table(0x85) == 0x9DD2_77AF
    ensures Table(0x86) == 0x04DB_2615
    ensures Table(0x87) == 0x73DC_1683
    ensures Table(0x88) == 0xE363_0B12
    ensures Table(0x89) == 0x9464_3B84
    ensures Table(0x8A) == 0x0D6D_6A3E
    ensures Table(0x8B) == 0x7A6A_5AA8
    ensures Table(0x8C) == 0xE40E_CF0B
    ensures Table(0x8D) == 0x9309_FF9D
    ensures Table(0x8E) == 0x0A00_AE27
    ensures Table(0x8F) == 0x7D07_9EB1
    ensures Table(0x90) == 0xF00F_9344
    ensures Table(0x91) == 0x8708_A3D2
    ensures Table(0x92) == 0x1E01_F268
    ensures Table(0x93) == 0x6906_C2FE
    ensures Table(0x94) == 0xF762_575D
    ensures Table(0x95) == 0x8065_67CB
    ensures Table(0x96) == 0x196C_3671
    ensures Table(0x97) == 0x6E6B_06E7
    ensures Table(0x98) == 0xFED4_1B76
    ensures Table(0x99) == 0x89D3_2BE0
    ensures Table(0x9A) == 0x10DA_7A5A
    ensures Table(0x9B) == 0x67DD_4ACC
    ensures Table(0x9C) == 0xF9B9_DF6F
    ensures Table(0x9D) == 0x8EBE_EFF9
    ensures Table(0x9E) == 0x17B7_BE43
    ensures Table(0x9F) == 0x60B0_8ED5
  {
  }

  lemma TableEntries5()
    ensures Table(0xA0) == 0xD6D6_A3E8
    ensures Table(0xA1) == 0xA1D1_937E
    ensures Table(0xA2) == 0x38D8_C2C4
    ensures Table(0xA3) == 0x4FDF_F252
    ensures Table(0xA4) == 0xD1BB_67F1
    ensures Table(0xA5) == 0xA6BC_5767
    ensures Table(0xA6) == 0x3FB5_06DD
    ensures Table(0xA7) == 0x48B2_364B
    ensures Table(0xA8) == 0xD80D_2BDA
    ensures Table(0xA9) == 0xAF0A_1B4C
    ensures Table(0xAA) == 0x3603_4AF6
    ensures Table(0xAB) == 0x4104_7A60
    ensures Table(0xAC) == 0xDF60_EFC3
    ensures Table(0xAD) == 0xA867_DF55
    ensures Table(0xAE) == 0x316E_8EEF
    ensures Table(0xAF) == 0x4669_BE79
    ensures Table(0xB0) == 0xCB61_B38C
    ensures Table(0xB1) == 0xBC66_831A
    ensures Table(0xB2) == 0x256F_D2A0
    ensures Table(0xB3) == 0x5268_E236
    ensures Table(0xB4) == 0xCC0C_7795
    ensures Table(0xB5) == 0xBB0B_4703
    ensures Table(0xB6) == 0x2202_16B9
    ensures Table(0xB7) == 0x5505_262F
    ensures Table(0xB8) == 0xC5BA_3BBE
    ensures Table(0xB9) == 0xB2BD_0B28
    ensures Table(0xBA) == 0x2BB4_5A92
    ensures Table(0xBB) == 0x5CB3_6A04
    ensures Table(0xBC) == 0xC2D7_FFA7
    ensures Table(0xBD) == 0xB5D0_CF31
    ensures Table(0xBE) == 0x2CD9_9E8B
    ensures Table(0xBF) == 0x5BDE_AE1D
  {
  }

  lemma TableEntries6()
    ensures Table(0xC0) == 0x9B64_C2B0
    ensures Table(0xC1) == 0xEC63_F226
    ensures Table(0xC2) == 0x756A_A39C
    ensures Table(0xC3) == 0x026D_930A
    ensures Table(0xC4) == 0x9C09_06A9
    ensures Table(0xC5) == 0xEB0E_363F
    ensures Table(0xC6) == 0x7207_6785
    ensures Table(0xC7) == 0x0500_5713
    ensures Table(0xC8) == 0x95BF_4A82
    ensures Table(0xC9) == 0xE2B8_7A14
    ensures Table(0xCA) == 0x7BB1_2BAE
    ensures Table(0xCB) == 0x0CB6_1B38
    ensures Table(0xCC) == 0x92D2_8E9B
    ensures Table(0xCD) == 0xE5D5_BE0D
    ensures Table(0xCE) == 0x7CDC_EFB7
    ensures Table(0xCF) == 0x0BDB_DF21
    ensures Table(0xD0) == 0x86D3_D2D4
    ensures Table(0xD1) == 0xF1D4_E242
    ensures Table(0xD2) == 0x68DD_B3F8
    ensures Table(0xD3) == 0x1FDA_836E
    ensures Table(0xD4) == 0x81BE_16CD
    ensures Table(0xD5) == 0xF6B9_265B
    ensures Table(0xD6) == 0x6FB0_77E1
    ensures Table(0xD7) == 0x18B7_4777
    ensures Table(0xD8) == 0x8808_5AE6
    ensures Table(0xD9) == 0xFF0F_6A70
    ensures Table(0xDA) == 0x6606_3BCA
    ensures Table(0xDB) == 0x1101_0B5C
    ensures Table(0xDC) == 0x8F65_9EFF
    ensures Table(0xDD) == 0xF862_AE69
    ensures Table(0xDE) == 0x616B_FFD3
    ensures Table(0xDF) == 0x166C_CF45
  {
  }

  lemma TableEntries7()
    ensures Table(0xE0) == 0xA00A_E278
    ensures Table(0xE1) == 0xD70D_D2EE
    ensures Table(0xE2) == 0x4E04_8354
    ensures Table(0xE3) == 0x3903_B3C2
    ensures Table(0xE4) == 0xA767_2661
    ensures Table(0xE5) == 0xD060_16F7
    ensures Table(0xE6) == 0x4969_474D
    ensures Table(0xE7) == 0x3E6E_77DB
    ensures Table(0xE8) == 0xAED1_6A4A
    ensures Table(0xE9) == 0xD9D6_5ADC
    ensures Table(0xEA) == 0x40DF_0B66
    ensures Table(0xEB) == 0x37D8_3BF0
    ensures Table(0xEC) == 0xA9BC_AE53
    ensures Table(0xED) == 0xDEBB_9EC5
    ensures Table(0xEE) == 0x47B2_CF7F
    ensures Table(0xEF) == 0x30B5_FFE9
    ensures Table(0xF0) == 0xBDBD_F21C
    ensures Table(0xF1) == 0xCABA_C28A
    ensures Table(0xF2) == 0x53B3_9330
    ensures Table(0xF3) == 0x24B4_A3A6
    ensures Table(0xF4) == 0xBAD0_3605
    ensures Table(0xF5) == 0xCDD7_0693
    ensures Table(0xF6) == 0x54DE_5729
    ensures Table(0xF7) == 0x23D9_67BF
    ensures Table(0xF8) == 0xB366_7A2E
    ensures Table(0xF9) == 0xC461_4AB8
    ensures Table(0xFA) == 0x5D68_1B02
    ensures Table(0xFB) == 0x2A6F_2B94
    ensures Table(0xFC) == 0xB40B_BE37
    ensures Table(0xFD) == 0xC30C_8EA1
    ensures Table(0xFE) == 0x5A05_DF1B
    ensures Table(0xFF) == 0x2D02_EF8D
  {
  }

  /** `calculateChecksum`'s step: the table entry for the low byte of
      `crc ^ d`, XORed with `crc` shifted down a byte. */
  function TableStep(crc: bv32, d: byte): bv32
  {
    (crc >> 8) ^ Table(((crc ^ (d as bv32)) & 0xFF) as byte)
  }

  /** The CRC register after the table steps over `data`. */
  function TableRun(crc: bv32, data: seq<byte>): bv32
    decreases |data|
  {
    if data == [] then crc else TableStep(TableRun(crc, data[..|data| - 1]), data[|data| - 1])
  }

  /** The CRC-32 of `data`: register preset to all ones, table steps,
      then all bits inverted. */
  function Crc32(data: seq<byte>): bv32
  {
    TableRun(0xFFFF_FFFF, data) ^ 0xFFFF_FFFF
  }

  /** The standard check value: CRC-32 of the ASCII digits 1 to 9. */
  lemma Crc32CheckValue()
    ensures Crc32([0x31, 0x32, 0x33, 0x34, 0x35, 0x36, 0x37, 0x38, 0x39]) == 0xCBF4_3926
  {
    var s: seq<byte> := [0x31, 0x32, 0x33, 0x34, 0x35, 0x36, 0x37, 0x38, 0x39];
    assert s[..0] == [];
    assert s[..1][..0] == [];
    var c0 := TableRun(0xFFFF_FFFF, s[..0]);
    var c1 := TableStep(c0, 0x31);
    assert TableRun(0xFFFF_FFFF, s[..1]) == c1 by { assert s[..1][..0] == s[..0]; }
    var c2 := TableStep(c1, 0x32);
    assert TableRun(0xFFFF_FFFF, s[..2]) == c2 by { assert s[..2][..1] == s[..1]; }
    var c3 := TableStep(c2, 0x33);
    assert TableRun(0xFFFF_FFFF, s[..3]) == c3 by { assert s[..3][..2] == s[..2]; }
    var c4 := TableStep(c3, 0x34);
    assert TableRun(0xFFFF_FFFF, s[..4]) == c4 by { assert s[..4][..3] == s[..3]; }
    var c5 := TableStep(c4, 0x35);
    assert TableRun(0xFFFF_FFFF, s[..5]) == c5 by { assert s[..5][..4] == s[..4]; }
    var c6 := TableStep(c5, 0x36);
    assert TableRun(0xFFFF_FFFF, s[..6]) == c6 by { assert s[..6][..5] == s[..5]; }
    var c7 := TableStep(c6, 0x37);
    assert TableRun(0xFFFF_FFFF, s[..7]) == c7 by { assert s[..7][..6] == s[..6]; }
    var c8 := TableStep(c7, 0x38);
    assert TableRun(0xFFFF_FFFF, s[..8]) == c8 by { assert s[..8][..7] == s[..7]; }
    var c9 := TableStep(c8, 0x39);
    assert TableRun(0xFFFF_FFFF, s) == c9 by { assert s[..8] == s[..|s| - 1]; }
    assert c9 ^ 0xFFFF_FFFF == 0xCBF4_3926;
  }

  /** The sum of the bytes of `data`. */
  function ByteSum(data: seq<byte>): nat
    decreases |data|
  {
    if data == [] then 0 else ByteSum(data[..|data| - 1]) + data[|data| - 1] as nat
  }

  /** The ADD16 checksum: the byte sum modulo 0x10000. */
  function Add16(data: seq<byte>): (r: nat)
    ensures r < 0x1_0000
  {
    ByteSum(data) % 0x1_0000
  }

  /** Every byte is 0xFF. */
  predicate FullFF(data: seq<byte>)
  {
    forall i :: 0 <= i < |data| ==> data[i] == 0xFF
  }

  lemma ModAdd(a: nat, b: nat, m: nat)
    requires m > 0
    ensures (a % m + b) % m == (a + b) % m
  {
    var q, t := a / m, (a % m + b) / m;
    var r := (a % m + b) % m;
    assert a == q * m + a % m;
    assert a % m + b == t * m + r;
    assert a + b == (q + t) * m + r;
    ModUnique(a + b, m, q + t, r);
  }

  lemma {:induction false} ByteSumAppend(a: seq<byte>, b: seq<byte>)
    ensures ByteSum(a + b) == ByteSum(a) + ByteSum(b)
    decreases |b|
  {
    if b != [] {
      assert (a + b)[..|a + b| - 1] == a + b[..|b| - 1];
      ByteSumAppend(a, b[..|b| - 1]);
    } else {
      assert a + b == a;
    }
  }

  /** The ADD16 of joined buffers is the sum of their ADD16s modulo
      0x10000. */
  lemma Add16Append(a: seq<byte>, b: seq<byte>)
    ensures Add16(a + b) == (Add16(a) + Add16(b)) % 0x1_0000
  {
    ByteSumAppend(a, b);
    ModAdd(ByteSum(a), ByteSum(b), 0x1_0000);
    ModAdd(ByteSum(b), Add16(a), 0x1_0000);
  }

  /** `size` copies of `value`. */
  function Repeat(size: nat, value: byte): (r: seq<byte>)
    ensures |r| == size && forall i :: 0 <= i < size ==> r[i] == value
  {
    seq(size, i => value)
  }

  /** The buffer fitted to `value` bytes: cut, or padded with 0xFF. */
  function Fitted(data: seq<byte>, value: nat): (r: seq<byte>)
    ensures |r| == value
    ensures forall i :: 0 <= i < value && i < |data| ==> r[i] == data[i]
    ensures forall i :: |data| <= i < value ==> r[i] == 0xFF
  {
    if value <= |data| then data[..value] else data + Repeat(value - |data|, 0xFF)
  }

  /** `QByteArray::left`: the first `n` bytes, or all of them. */
  function Left(data: seq<byte>, n: nat): (r: seq<byte>)
    ensures |r| == if n < |data| then n else |data|
    ensures r == data[..|r|]
  {
    if n < |data| then data[..n] else data
  }

  /** `QByteArray::remove`: nothing for a position outside the array; the
      array cut at `pos` when the range runs past its end; otherwise the
      range taken out. */
  function Remove(data: seq<byte>, pos: int, len: nat): (r: seq<byte>)
    ensures pos < 0 || pos >= |data| ==> r == data
    ensures 0 <= pos < |data| && pos + len >= |data| ==> r == data[..pos]
    ensures 0 <= pos < |data| && pos + len < |data| ==> r == data[..pos] + data[pos + len..]
  {
    if pos < 0 || pos >= |data| then data
    else if pos + len >= |data| then data[..pos]
    else data[..pos] + data[pos + len..]
  }

  /** The buffer after Delete or Backspace on the selection from `start`
      to `end`: the selected bytes removed (Backspace with an empty
      selection removes the byte before it), as many 0xFF bytes appended
      as the selection is long, and the result cut to `size`. */
  function AfterDelete(data: seq<byte>, size: nat, start: int, end: int, backspace: bool): (r: seq<byte>)
    requires end - start >= 0
  {
    var k := end - start + 1;
    var removed := if backspace && start == end then Remove(data, start - 1, k) else Remove(data, start, k);
    Left(removed + Repeat(k, 0xFF), size)
  }

  /** Deleting a selection inside a full buffer keeps its length: the
      bytes after the selection move down and 0xFF fills the end. */
  lemma DeleteKeepsLength(data: seq<byte>, start: nat, end: nat)
    requires start <= end < |data|
    ensures var r := AfterDelete(data, |data|, start, end, false);
            |r| == |data| && r == data[..start] + data[end + 1..] + Repeat(end - start + 1, 0xFF)
  {
    var k := end - start + 1;
    if start + k >= |data| {
      assert data[end + 1..] == [];
      assert data[..start] + data[end + 1..] == data[..start];
    }
  }

  /** Backspace with no selection removes the byte before the cursor and
      keeps the length; at the start of the buffer it changes nothing. */
  lemma BackspaceKeepsLength(data: seq<byte>, pos: nat)
    requires pos <= |data|
    ensures var r := AfterDelete(data, |data|, pos, pos, true);
            |r| == |data|
            && (pos == 0 ==> r == data)
            && (pos > 0 ==> r == data[..pos - 1] + data[pos..] + [0xFF])
  {
    var r := AfterDelete(data, |data|, pos, pos, true);
    if pos == 0 {
      assert Remove(data, -1, 1) == data;
      assert (data + Repeat(1, 0xFF))[..|data|] == data;
    } else if pos == |data| {
      assert data[pos..] == [];
      assert Repeat(1, 0xFF) == [0xFF];
    } else {
      assert Repeat(1, 0xFF) == [0xFF];
    }
  }

  /** What one pass of `calculateChecksum` keeps: the ADD16, the CRC
      register and whether every byte so far was 0xFF. */
  datatype Sums = Sums(add16: nat, crc: bv32, full: bool)

  function SumStep(s: Sums, d: byte): Sums
  {
    Sums((s.add16 + d as nat) % 0x1_0000, TableStep(s.crc, d), s.full && d == 0xFF)
  }

  /** The pass over `data` from the start values 0, all ones and true. */
  function SumRun(data: seq<byte>): Sums
    decreases |data|
  {
    if data == [] then Sums(0, 0xFFFF_FFFF, true) else SumStep(SumRun(data[..|data| - 1]), data[|data| - 1])
  }

  /** The pass yields the ADD16, the CRC register and the all-0xFF flag. */
  lemma SumRunFacts(data: seq<byte>)
    ensures SumRun(data) == Sums(Add16(data), TableRun(0xFFFF_FFFF, data), FullFF(data))
  {
    SumRunAdd16(data);
    SumRunCrc(data);
    SumRunFull(data);
  }

  lemma {:induction false} SumRunAdd16(data: seq<byte>)
    ensures SumRun(data).add16 == Add16(data)
    decreases |data|
  {
    if data != [] {
      var init := data[..|data| - 1];
      SumRunAdd16(init);
      ModAdd(ByteSum(init), data[|data| - 1] as nat, 0x1_0000);
    }
  }

  lemma {:induction false} SumRunCrc(data: seq<byte>)
    ensures SumRun(data).crc == TableRun(0xFFFF_FFFF, data)
    decreases |data|
  {
    if data != [] {
      SumRunCrc(data[..|data| - 1]);
    }
  }

  lemma {:induction false} SumRunFull(data: seq<byte>)
    ensures SumRun(data).full == FullFF(data)
    decreases |data|
  {
    if data != [] {
      var init := data[..|data| - 1];
      SumRunFull(init);
      assert FullFF(data) == (FullFF(init) && data[|data| - 1] == 0xFF) by {
        assert forall i :: 0 <= i < |init| ==> init[i] == data[i];
      }
    }
  }

  /** The editor widget's buffer and the checksums kept beside it. */
  class Editor {
    var data: seq<byte>
    var size: nat
    var changed: bool
    var add16: nat
    var crc32: bv32
    var isFullFF: bool

    /** The checksum fields describe the buffer. */
    predicate Summed()
      reads this
    {
      add16 == Add16(data) && crc32 == Crc32(data) && isFullFF == FullFF(data)
    }

    /** An unchanged editor of 1024 bytes of 0xFF. */
    constructor ()
      ensures data == Repeat(1024, 0xFF) && size == 1024 && !changed && Summed()
    {
      data, size, changed := [], 0, false;
      add16, crc32, isFullFF := 0, 0, false;
      new;
      SetSize(1024);
    }

    /** `calculateChecksum`: one pass over the buffer for the ADD16, the
        CRC-32 and the all-0xFF flag. */
    method CalculateChecksum()
      modifies this`add16, this`crc32, this`isFullFF
      ensures Summed()
    {
      var sums := Sums(0, 0xFFFF_FFFF, true);
      var i := 0;
      while i < |data|
        invariant 0 <= i <= |data| && sums == SumRun(data[..i])
      {
        assert data[..i + 1][..i] == data[..i];
        sums := SumStep(sums, data[i]);
        i := i + 1;
      }
      assert data[..|data|] == data;
      SumRunFacts(data);
      add16, crc32, isFullFF := sums.add16, sums.crc ^ 0xFFFF_FFFF, sums.full;
    }

    /** `setSize`: a new size cuts the buffer or pads it with 0xFF; the
        changed flag is left as it is. */
    method SetSize(value: nat)
      modifies this
      ensures value == old(size) ==> data == old(data) && size == old(size) && Summed() == old(Summed())
      ensures value != old(size) ==> data == Fitted(old(data), value) && size == value && Summed()
      ensures changed == old(changed)
    {
      if value == size {
        return;
      }
      data := Fitted(data, value);
      size := value;
      CalculateChecksum();
    }

    /** `fill`: `size` copies of `value`; the buffer counts as changed
        unless the value is 0xFF. */
    method Fill(value: byte)
      modifies this`data, this`changed, this`add16, this`crc32, this`isFullFF
      ensures data == Repeat(size, value) && Summed()
      ensures changed == (value != 0xFF)
    {
      data := Repeat(size, value);
      CalculateChecksum();
      changed := value != 0xFF;
    }

    /** `putData`: the first `size` bytes of `input`; the buffer counts as
        changed unless it is all 0xFF. */
    method PutData(input: seq<byte>)
      modifies this`data, this`changed, this`add16, this`crc32, this`isFullFF
      ensures data == Left(input, size) && Summed()
      ensures changed == !FullFF(data)
    {
      data := Left(input, size);
      CalculateChecksum();
      changed := !isFullFF;
    }

    /** Delete or Backspace over the selection from `start` to `end`; a
        reversed selection is ignored. */
    method DeleteKey(start: int, end: int, backspace: bool)
      modifies this`data, this`changed, this`add16, this`crc32, this`isFullFF
      ensures end - start < 0 ==> data == old(data) && changed == old(changed)
      ensures end - start >= 0 ==>
                data == AfterDelete(old(data), size, start, end, backspace) && Summed()
                && changed == !FullFF(data)
    {
      if end - start < 0 {
        return;
      }
      var k := end - start + 1;
      var removed := if backspace && start == end then Remove(data, start - 1, k) else Remove(data, start, k);
      PutData(removed + Repeat(k, 0xFF));
    }
  }
}
