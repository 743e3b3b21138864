# usbflashprog core in Dafny

This project models the logic at the heart of usbflashprog. That is the firmware of a USB programmer for parallel EPROMs, EEPROMs, flash and SRAM chips, the host application that drives it, and the chip emulators and Willem-programmer tools that ship beside them. Each part is modelled in the form its source has. Code that updates fields becomes a `class` whose methods are proved against specification functions. Pure bit and buffer algorithms become functions with lemmas.

The modules follow the source files:

- `Bytes` (bytes.dfy): fixed-width integers as bit-vectors, `Option`, and shared power-of-two and bit lemmas.
- `OpCodes` (opcodes.dfy): the firmware's opcode table (`kCmdOpCodes`), `isOk`, `getOpCode`, and the MSB-first parameter getters and setters of the wire protocol.
- `Runner` (runner.dfy): the firmware command loop. It covers the framing in `loop`, `readByte_`, the validation in `runCommand_`, every command handler, the settings flags, and `deviceWriteAndVerify_`. Serial input, sampled bus levels and measured values are parameters; replies are recorded in a sequence, and the calls on each regulator in a trace.
- `HC595` and `HC165` (hc595.dfy, hc165.dfy): the shift-register drivers. These are the output buffer with its bit access and the levels clocked onto SIN, and the reassembly of the bytes read from a stream of sampled levels.
- `Bus` (bus.dfy): the control, data and address buses, and when their configuration is valid.
- `Dc2Dc` (dc2dc.dfy): the DC-DC regulator's duty-cycle step rule, with clamping, `setV`, `start` and `stop`.
- `FwDevice` (fw_device.dfy): the firmware device engine. It covers `configure`, read, write with skip-0xFF and verify, verify, blank check, `getId`, erase and protect over an idealised chip memory.
- `Flash` (flash.dfy): the firmware's on-chip flash store. It covers page and sector rounding, placement at the end of the flash, and the bounds guards of `write_`, `read_` and `verify_`. The guards are computed in 32-bit `size_t` arithmetic as the code writes them, so an oversized block can pass them; its effect on the memory outside the flash is a parameter.
- `StringUtils` (strings.dfy): `upper`, `lower`, `trim`, `split` and `fromInt`.
- `Emulator` and `EmulatorEprom` (emulator.dfy, emulator_eprom.dfy): the host-side test emulator and its emulated UV-EPROM. They cover buffer-size rounding, the sticky error, the address register, device writes, blank check, and the EPROM's bit-clearing writes and erase counter.
- `BaseChip` and `Eeprom28C` (basechip.dfy, eeprom28c.dfy): the chip-library base class and the 28C EEPROM with its protect and unprotect state machine.
  - The C++ classes `BaseChip`, `BaseParChip`, `ChipEeprom28C` and the workaround variant form an inheritance chain.
  - Here that chain is one class, `ChipEeprom28C`. It holds the base-class fields, and a flag selects the variant.
- `HostDevice` and `Dummy` (device.dfy, dummy.dfy): the host's device base class with its guarded setters and default operations, and the dummy device.
  - The dummy device holds its base-class part as a `Device` object.
- `HexEditor` (hexeditor.dfy): the editor's ADD16 and CRC-32 checksums, the all-0xFF flag, resizing, filling, loading and the Delete and Backspace keys.
  - The CRC-32 is the 32-bit frame check sequence of section 8.1.1.6.2 of ITU-T V.42.
  - The editor's constant table is proved equal, entry by entry, to the table that definition produces.
- `Willem` (willem.dfy): the Willem board emulation behind the parallel port. It covers the control-port pin changes and the data-port shift registers and status bits. The calls the board makes into the chip library are recorded as a trace.
- `Misc` and `Mcs51` (misc.dfy, mcs51.dfy): from the eprom090d reference software, `swap_adr`, `calcu_adr`, `saveEpr`/`restoreEpr`, and the AT89Cx051 data-line permutation `Dout`/`Din`.

Integer widths are modelled explicitly. Byte, word and double-word values are bit-vectors. Sizes and addresses are `int` subset types with explicit `% 2^32` where the source's arithmetic wraps. Delays, logging, progress signals and GPIO timing are no-ops.

## Model

| member | source | states |
|---|---|---|
| OpCodes.TableKeysAreCodes | firmware/usbflashprog/modules/opcodes.hpp:427-481 | every entry of the opcode table is stored under its own code |
| OpCodes.TableByteCounts | firmware/usbflashprog/modules/opcodes.hpp:427-481 | no opcode declares more than four parameter or result bytes |
| OpCodes.TableShape | firmware/usbflashprog/modules/opcodes.hpp:428-477 | the NOP entry; Addr Set declares 3 parameter bytes, GetID 4 result bytes, Set Twp/Twc 4 parameter bytes |
| OpCodes.IsOk | firmware/usbflashprog/modules/opcodes.cpp:38-44 | a reply is OK exactly when it is non-null, non-empty and starts with 0xA1 |
| OpCodes.GetOpCode | firmware/usbflashprog/modules/opcodes.cpp:54-60 | the result is always a table entry; it carries the code looked up exactly when that code is in the table, and is NOP otherwise |
| OpCodes.GetFrameOpCode | firmware/usbflashprog/modules/opcodes.cpp:46-52 | a null or empty frame gives NOP; otherwise the entry of the first byte |
| OpCodes.SetByte | firmware/usbflashprog/modules/opcodes.cpp:125-132 | succeeds exactly on a non-null frame of at least 2 bytes, and then byte 1 holds the value |
| OpCodes.SetWord | firmware/usbflashprog/modules/opcodes.cpp:134-142 | succeeds exactly on a non-null frame of at least 3 bytes, which then holds the value MSB first in bytes 1-2 |
| OpCodes.SetDWord | firmware/usbflashprog/modules/opcodes.cpp:144-160 | succeeds exactly on a non-null frame of at least 4 bytes; a 4-byte frame holds the low 24 bits, a longer one all 32, MSB first |
| OpCodes.SetBool | firmware/usbflashprog/modules/opcodes.cpp:162-165 | stores 0x01 or 0x00 in byte 1, under the conditions of `setByte` |
| OpCodes.PutKeepsFrame | firmware/usbflashprog/modules/opcodes.cpp:125-160 | no setter changes the frame's length, its byte 0, or any byte past `size` |
| OpCodes.ByteRoundTrip | firmware/usbflashprog/modules/opcodes.cpp:125-132 | `getValueAsByte` after `setByte` gives the value back |
| OpCodes.BoolRoundTrip | firmware/usbflashprog/modules/opcodes.cpp:162-165 | `getValueAsBool` after `setBool` gives the value back |
| OpCodes.WordRoundTrip | firmware/usbflashprog/modules/opcodes.cpp:134-142 | `getValueAsWord` after `setWord` gives the value back |
| OpCodes.DWordRoundTrip | firmware/usbflashprog/modules/opcodes.cpp:144-160 | `getValueAsDWord` after `setDWord` gives the value back from 5 bytes on, and only its low 24 bits in a 4-byte frame |
| OpCodes.GetterFallbacks | firmware/usbflashprog/modules/opcodes.cpp:70-112 | a null frame reads as 0 and false; a frame too short for a word or double word reads as the narrower value |
| OpCodes.GetValueAsByte | firmware/usbflashprog/modules/opcodes.cpp:70-76 | byte 1 of the frame; 0 for a null frame or one under 2 bytes |
| OpCodes.GetValueAsBool | firmware/usbflashprog/modules/opcodes.cpp:78-80 | true unless the byte value is the Off parameter |
| OpCodes.GetValueAsWord | firmware/usbflashprog/modules/opcodes.cpp:82-92 | bytes 1-2 MSB first; a frame under 3 bytes reads as the byte value |
| OpCodes.GetValueAsDWord | firmware/usbflashprog/modules/opcodes.cpp:94-112 | bytes 1-4 MSB first, only three of them in a 4-byte frame; a shorter frame reads as the word value |
| OpCodes.PutByte | firmware/usbflashprog/modules/opcodes.cpp:125-132 | the frame after `setByte`: byte 1 replaced when there is room |
| OpCodes.PutWord | firmware/usbflashprog/modules/opcodes.cpp:134-142 | the frame after `setWord`: bytes 1-2 replaced MSB first when there is room |
| OpCodes.PutDWord | firmware/usbflashprog/modules/opcodes.cpp:144-160 | the frame after `setDWord`: three or four bytes replaced MSB first when there is room |
| Bus.CtrlBus.constructor | firmware/usbflashprog/modules/bus.cpp:23 | all three control pins unconnected |
| Bus.CtrlBus.Configure | firmware/usbflashprog/modules/bus.cpp:88-90 | the configuration is replaced |
| Bus.CtrlBus.SetCE | firmware/usbflashprog/modules/bus.cpp:96-101 | CE takes the level exactly when all three pins are connected; otherwise nothing changes |
| Bus.CtrlBus.SetOE | firmware/usbflashprog/modules/bus.cpp:103-108 | the same for OE |
| Bus.CtrlBus.SetWE | firmware/usbflashprog/modules/bus.cpp:110-115 | the same for WE |
| Bus.DataBus.constructor | firmware/usbflashprog/modules/bus.cpp:124 | value 0, pins unconnected, registers wired to them |
| Bus.DataBus.Configure | firmware/usbflashprog/modules/bus.cpp:132-142 | both registers wired as configured, output enabled, input chip-enabled, output register cleared, value 0 |
| Bus.DataBus.WriteByte | firmware/usbflashprog/modules/bus.cpp:148-155 | succeeds exactly when all five pins are connected; then the byte goes into the output register and becomes the value; otherwise nothing changes |
| Bus.DataBus.WriteWord | firmware/usbflashprog/modules/bus.cpp:157-164 | the same for a word, stored little-endian in the output register |
| Bus.DataBus.ReadByte | firmware/usbflashprog/modules/bus.cpp:166-172 | 0 on an incomplete configuration; otherwise the byte the input register shifts in reversed (first bit in is bit 0) |
| Bus.DataBus.ReadWord | firmware/usbflashprog/modules/bus.cpp:174-180 | the same for a little-endian word |
| Bus.AddrBus.constructor | firmware/usbflashprog/modules/bus.cpp:190 | address 0, pins unconnected |
| Bus.AddrBus.Configure | firmware/usbflashprog/modules/bus.cpp:198-205 | register wired as configured, output enabled, cleared, address 0 |
| Bus.AddrBus.WriteByte | firmware/usbflashprog/modules/bus.cpp:211-218 | succeeds exactly when all four pins are connected; then the register and the address hold the byte; otherwise nothing changes |
| Bus.AddrBus.WriteWord | firmware/usbflashprog/modules/bus.cpp:220-227 | the same for a word |
| Bus.AddrBus.WriteDWord | firmware/usbflashprog/modules/bus.cpp:229-236 | the same for a double word |
| Bus.AddrBus.Increment | firmware/usbflashprog/modules/bus.cpp:238-245 | on a complete configuration the address goes up by one, wrapping at 32 bits, and is shifted out; otherwise nothing changes |
| HC595.ShiftOut | firmware/usbflashprog/circuits/74hc595.cpp:82-101 | the write loop leaves the data in the first cells and the grown buffer beyond, and puts the data's bits on SIN last byte first, bit 7 first, when SIN and CLK are connected |
| HC595.ShiftByte | firmware/usbflashprog/circuits/74hc595.cpp:88-94 | the levels put on SIN for one byte are its bits 7 down to 0 |
| HC595.HC595.constructor | firmware/usbflashprog/circuits/74hc595.cpp:19-21 | no pins, default pulse time, empty buffer, output disabled |
| HC595.HC595.Configure | firmware/usbflashprog/circuits/74hc595.cpp:28-36 | the pins and pulse time are replaced and nothing else changes |
| HC595.HC595.Clear | firmware/usbflashprog/circuits/74hc595.cpp:38-45 | every byte of the buffer becomes 0 and its length is kept |
| HC595.HC595.OutputEnable | firmware/usbflashprog/circuits/74hc595.cpp:47-52 | the output-enable state takes the value |
| HC595.HC595.OutputDisable | firmware/usbflashprog/circuits/74hc595.cpp:54-56 | the output-enable state becomes false |
| HC595.HC595.WriteData | firmware/usbflashprog/circuits/74hc595.cpp:78-102 | empty data changes nothing; otherwise the buffer grows to the data's length if shorter, takes the data in its first cells and keeps the rest, and SIN sees the data's bits last byte first |
| HC595.HC595.WriteByte | firmware/usbflashprog/circuits/74hc595.cpp:58-60 | a one-byte write |
| HC595.HC595.WriteWord | firmware/usbflashprog/circuits/74hc595.cpp:62-67 | a two-byte write, low byte first |
| HC595.HC595.WriteDWord | firmware/usbflashprog/circuits/74hc595.cpp:69-76 | a four-byte write, low byte first |
| HC595.HC595.SetBit | firmware/usbflashprog/circuits/74hc595.cpp:104-118 | the buffer grows with zero bytes to hold the bit, the bit takes the value, and the whole buffer is shifted out again |
| HC595.HC595.ResetBit | firmware/usbflashprog/circuits/74hc595.cpp:120-122 | `setBit` with false |
| HC595.StoredShape | firmware/usbflashprog/circuits/74hc595.cpp:78-85 | a write never shrinks the buffer; its first cells are the data and the cells past the data keep their bytes |
| HC595.SetThenGet | firmware/usbflashprog/circuits/74hc595.cpp:104-135 | `getBit` after `setBit` gives the value back, and the buffer then holds at least `bit / 8 + 1` bytes |
| HC595.SetBitFrame | firmware/usbflashprog/circuits/74hc595.cpp:104-135 | `setBit` changes no other bit |
| HC595.GetBitBeyond | firmware/usbflashprog/circuits/74hc595.cpp:128-135 | a bit past the end of the buffer reads as false |
| HC595.HC595.GetBit | firmware/usbflashprog/circuits/74hc595.cpp:128-135 | bit `bit % 8` of buffer byte `bit / 8`, false past the buffer |
| HC595.WordBytesLittleEndian | firmware/usbflashprog/circuits/74hc595.cpp:62-67 | recomposing the two stored bytes low byte first gives the word back |
| HC595.DWordBytesLittleEndian | firmware/usbflashprog/circuits/74hc595.cpp:69-76 | recomposing the four stored bytes low byte first gives the double word back |
| HC595.ShiftedBitsOrder | firmware/usbflashprog/circuits/74hc595.cpp:82-95 | a write puts 8 bits per byte on SIN, and bit `j` of byte `k` is at position `8 * (n - 1 - k) + 7 - j` |
| HC595.WriteSequenceExample | firmware/usbflashprog/test/circuits/74hc595_test.cpp:54-68 | the buffers the driver's data test expects after writing 0x5A, 0x37, 0xA534 and 0x8E743921 |
| HC165.HC165.constructor | firmware/usbflashprog/circuits/74hc165.cpp:22-24 | no pins, default pulse time, chip disabled |
| HC165.HC165.Configure | firmware/usbflashprog/circuits/74hc165.cpp:32-40 | the pins and pulse time are replaced and the chip-enable state is kept |
| HC165.HC165.ChipEnable | firmware/usbflashprog/circuits/74hc165.cpp:42-47 | the chip-enable state takes the value |
| HC165.HC165.ChipDisable | firmware/usbflashprog/circuits/74hc165.cpp:49-54 | the chip-enable state becomes false |
| HC165.HC165.GetCE | firmware/usbflashprog/circuits/74hc165.cpp:56-58 | the chip-enable state |
| HC165.HC165.GetBit | firmware/usbflashprog/circuits/74hc165.cpp:68-83 | false unless CLK and an output pin are connected; otherwise the level sampled after `index` pulses, inverted when only /Q7 is connected |
| HC165.HC165.ReadData | firmware/usbflashprog/circuits/74hc165.cpp:119-161 | 0 and nothing stored for a null buffer, size 0, or no CLK or output pin; otherwise `size` bytes, byte `k` bit `b` being the sampled bit at `BitIndex` |
| HC165.PackByte | firmware/usbflashprog/circuits/74hc165.cpp:142-158 | the inner loop packs byte `nbyte` from its eight stream bits and stops only after the last bit of the last byte |
| HC165.HC165.ReadByte | firmware/usbflashprog/circuits/74hc165.cpp:85-91 | 0 when nothing can be read; otherwise the first packed byte |
| HC165.HC165.ReadWord | firmware/usbflashprog/circuits/74hc165.cpp:93-102 | 0 when nothing can be read; otherwise two packed bytes, low byte first |
| HC165.HC165.ReadDWord | firmware/usbflashprog/circuits/74hc165.cpp:104-117 | 0 when nothing can be read; otherwise four packed bytes, low byte first |
| HC165.PackBitsBits | firmware/usbflashprog/circuits/74hc165.cpp:143-146 | bit `b` of a byte packed from `n` bits is set exactly when `b < n` and the stream bit for `b` is 1 |
| HC165.UnpackedBits | firmware/usbflashprog/circuits/74hc165.cpp:138-159 | bit `b` of byte `k` read is the stream bit `8k + b` in reverse order, and `8 size - 1 - (8k + b)` forward |
| HC165.BitIndexEnd | firmware/usbflashprog/circuits/74hc165.cpp:147-149 | the bit walk reaches its end only at bit 7 of the last byte |
| HC165.AllOnesUnpacked | firmware/usbflashprog/test/circuits/74hc165_test.cpp:62-72 | with every sampled level high each byte read is 0xFF, in either order |
| HC165.AllOnesWords | firmware/usbflashprog/test/circuits/74hc165_test.cpp:66-72 | so the word and double word read are 0xFFFF and 0xFFFFFFFF |
| Dc2Dc.Clamp | firmware/usbflashprog/circuits/dc2dc.cpp:163-164 | the clamped duty is never below the minimum, lies within [min, max] when the bounds are ordered, and a duty already within them is kept |
| Dc2Dc.Step | firmware/usbflashprog/circuits/dc2dc.cpp:152-162 | the duty before clamping: the fast step outside the band by more than the fast tolerance, the slow step outside the band, no change inside it |
| Dc2Dc.ValidConfig | firmware/usbflashprog/circuits/dc2dc.cpp:193-197 | a PWM pin, a non-zero frequency and an ADC channel are set |
| Dc2Dc.Target | firmware/usbflashprog/circuits/dc2dc.cpp:171-175 | the stored target is never negative and a non-negative request is taken as given |
| Dc2Dc.TargetIdempotent | firmware/usbflashprog/circuits/dc2dc.cpp:171-175 | setting the stored target again changes nothing |
| Dc2Dc.StepInBand | firmware/usbflashprog/circuits/dc2dc.cpp:152-162 | a measurement within the tolerance band keeps the duty |
| Dc2Dc.StepMonotone | firmware/usbflashprog/circuits/dc2dc.cpp:152-162 | a lower measurement never gives a smaller duty, when the fast step is at least the slow one and the tolerances are fractions |
| Dc2Dc.Dc2Dc.constructor | firmware/usbflashprog/circuits/dc2dc.cpp:93-94 | the default configuration, no PWM, target, voltage and duty 0 |
| Dc2Dc.Dc2Dc.Stop | firmware/usbflashprog/circuits/dc2dc.cpp:132-137 | a converter that is not running stays as it is and reports true; a running one stops and reports true exactly when its configuration is valid |
| Dc2Dc.Dc2Dc.Start | firmware/usbflashprog/circuits/dc2dc.cpp:124-130 | a running converter reports true unchanged; otherwise it starts at the minimum duty exactly when its configuration is valid |
| Dc2Dc.Dc2Dc.Configure | firmware/usbflashprog/circuits/dc2dc.cpp:106-122 | the configuration is replaced and a PWM exists; the same pin and reference keep the PWM's state; a new pin gives a new, stopped PWM; a new reference alone stops a running converter whose old configuration was valid |
| Dc2Dc.Dc2Dc.SetV | firmware/usbflashprog/circuits/dc2dc.cpp:171-175 | the target becomes the request, negative requests giving 0 |
| Dc2Dc.Dc2Dc.Adjust | firmware/usbflashprog/circuits/dc2dc.cpp:144-169 | stopped: voltage and duty read 0; running: the voltage is the sample scaled by the divider plus the calibration, the duty is stepped towards the band and clamped, and the PWM gets the duty only when it changed |
| Flash.PageSize | firmware/usbflashprog/hal/flash.cpp:87-90 | without wrap-around, the result is the multiple of 256 in [len, len + 256) |
| Flash.PageSizeLeast | firmware/usbflashprog/hal/flash.cpp:87-90 | no smaller multiple of 256 holds `len` |
| Flash.SectorSize | firmware/usbflashprog/hal/flash.cpp:92-95 | without wrap-around, the result is the multiple of 4096 in [len, len + 4096) |
| Flash.SectorSizeLeast | firmware/usbflashprog/hal/flash.cpp:92-95 | no smaller multiple of 4096 holds `len` |
| Flash.Offset | firmware/usbflashprog/hal/flash.cpp:97-99 | a block that fits starts where it ends exactly at the end of the 2 MiB flash |
| Flash.OutOfRangeAsWrittenCounterexample | firmware/usbflashprog/hal/flash.cpp:60 | a 3 MiB block gets the wrapped offset 0xFFF00000 and the written 32-bit check lets it through, though the block lies outside the flash |
| Flash.OutOfRangeAgrees | firmware/usbflashprog/hal/flash.cpp:60 | for offsets and lengths within the flash, the written check and the intended one agree |
| Flash.OutOfRangeAsWritten | firmware/usbflashprog/hal/flash.cpp:60 | the written guard: the 32-bit sum of offset and length exceeds the flash size |
| Flash.OutOfRange | firmware/usbflashprog/hal/flash.cpp:60 | the intended guard: the block does not end inside the flash |
| Flash.Programmed | firmware/usbflashprog/hal/flash.cpp:65-66 | after erase and program, the block holds the data, the rest of its sectors is erased, and everything outside them is kept |
| Flash.Flash.WriteRaw | firmware/usbflashprog/hal/flash.cpp:59-68 | no buffer, no length, or a block or sector range whose 32-bit end lies past the flash changes nothing; a block and sectors that lie in the flash are erased and programmed; a block that passes the 32-bit guards but lies outside the flash leaves it as the outside effect says |
| Flash.Flash.ReadRaw | firmware/usbflashprog/hal/flash.cpp:70-74 | a block rejected by the 32-bit guard leaves the buffer as it is; otherwise the bytes past `len` are kept and the first `len` become the block, or the bytes found outside the flash when the block wraps out of it |
| Flash.Flash.VerifyRaw | firmware/usbflashprog/hal/flash.cpp:76-85 | false for a block rejected by the 32-bit guard; otherwise true exactly when the block, or for a wrapped block the bytes found outside the flash, equals the first `len` bytes of the buffer |
| Flash.Flash.Write | firmware/usbflashprog/hal/flash.cpp:28-36 | an empty buffer changes nothing; a buffer that fits is zero-padded to whole pages and programmed in the last sectors of the flash; a larger one passes every guard and leaves the flash as the outside effect says |
| Flash.Flash.Read | firmware/usbflashprog/hal/flash.cpp:38-46 | `len` bytes: for a block that fits, those stored where `write` puts a block of that size; for a larger one, the bytes found outside the flash |
| Flash.Flash.Verify | firmware/usbflashprog/hal/flash.cpp:48-57 | false for an empty buffer; for one that fits, true exactly when the flash holds it where `write` puts it; for a larger one, true exactly when the bytes found outside the flash equal it |
| Flash.PlacementFits | firmware/usbflashprog/hal/flash.cpp:28-31 | a buffer that fits gets pages and sectors that hold it and end exactly at the end of the flash |
| Flash.Placement | firmware/usbflashprog/hal/flash.cpp:28-57 | the page-rounded length holds the buffer; a buffer that fits lies in the flash with its sectors; a larger one gets an offset past the flash that every 32-bit guard of `write`, `read` and `verify` lets through |
| Flash.PlacementBeyond | firmware/usbflashprog/hal/flash.cpp:28-31 | as written, an oversized buffer is placed past the end of the flash, and the guards of every block up to its padded length and of its sectors pass |
| Flash.OutOfRangeExact | firmware/usbflashprog/hal/flash.cpp:60 | the intended guard accepts a non-empty block exactly when every byte of it is a flash address |
| Flash.WriteThenRead | firmware/usbflashprog/hal/flash.cpp:28-57 | `verify` and `read` after `write` of a non-empty buffer that fits give it back |
| StringUtils.ToUpper | firmware/usbflashprog/hal/string.cpp:34 | only a lower-case ASCII letter changes, to its capital |
| StringUtils.ToLower | firmware/usbflashprog/hal/string.cpp:41 | only a capital ASCII letter changes, to its lower-case letter |
| StringUtils.Upper | firmware/usbflashprog/hal/string.cpp:31-36 | same length, every character converted to upper case |
| StringUtils.Lower | firmware/usbflashprog/hal/string.cpp:38-43 | same length, every character converted to lower case |
| StringUtils.CaseLaws | firmware/usbflashprog/hal/string.cpp:31-43 | both conversions are idempotent, and each undoes the other on a string without letters of the other case |
| StringUtils.UpperExample | firmware/usbflashprog/test/hal/string_test.cpp:24-38 | "aBcD123$ " converts to "ABCD123$ " and "abcd123$ " |
| StringUtils.TrimLeft | firmware/usbflashprog/hal/string.cpp:47-49 | a suffix of the string that does not start with white space, all removed characters being white space |
| StringUtils.TrimRight | firmware/usbflashprog/hal/string.cpp:50-53 | a prefix of the string that does not end with white space, all removed characters being white space |
| StringUtils.Trim | firmware/usbflashprog/hal/string.cpp:45-55 | leading white space removed, then trailing white space |
| StringUtils.TrimShape | firmware/usbflashprog/hal/string.cpp:45-55 | `trim` returns a run of the string that neither starts nor ends with white space, and everything around it is white space |
| StringUtils.TrimExamples | firmware/usbflashprog/hal/string.cpp:45-55 | " a\t" trims to "a", and a blank string to "" |
| StringUtils.Pieces | firmware/usbflashprog/hal/string.cpp:60-62 | the successive `getline` pieces; there is always at least one |
| StringUtils.PiecesJoin | firmware/usbflashprog/hal/string.cpp:60-62 | no piece holds the separator, and joining the pieces with it gives the string back |
| StringUtils.Kept | firmware/usbflashprog/hal/string.cpp:63-69 | `split` keeps at most as many tokens as there are pieces |
| StringUtils.KeptTokens | firmware/usbflashprog/hal/string.cpp:63-69 | without trimming, every token is non-empty and holds no separator |
| StringUtils.SplitExample | firmware/usbflashprog/test/hal/string_test.cpp:53 | "," splits into no token; "a,,b" into "a" and "b" |
| StringUtils.Split | firmware/usbflashprog/hal/string.cpp:57-72 | the tokens are the non-empty pieces between separators, in order, trimmed when asked |
| StringUtils.DigitChar | firmware/usbflashprog/hal/string.cpp:88-89 | the digit character reads back as its value (capitals for 10-15) |
| StringUtils.Digits | firmware/usbflashprog/hal/string.cpp:86-109 | at least one digit |
| StringUtils.DigitsValue | firmware/usbflashprog/hal/string.cpp:86-109 | the digits read back as the number in every base from 2 to 16 |
| StringUtils.DigitsNoLeadingZero | firmware/usbflashprog/hal/string.cpp:86-109 | only zero is written with a leading '0' |
| StringUtils.Pad | firmware/usbflashprog/hal/string.cpp:88-108 | `setw` padding: the string right-aligned in `width` fill characters, never truncated |
| StringUtils.Unsigned | firmware/usbflashprog/hal/string.cpp:95 | the `int` read as its 32-bit unsigned value, as `bitset<32>`, `hex` and `oct` print it |
| StringUtils.Decimal | firmware/usbflashprog/hal/string.cpp:107-112 | the decimal form of the `int`, with its minus sign |
| StringUtils.Bits | firmware/usbflashprog/hal/string.cpp:95 | the bit string has one character per bit |
| StringUtils.StripBits | firmware/usbflashprog/hal/string.cpp:95-101 | stripping the leading zeros of the 32-bit string of `u` leaves its binary digits, or nothing for zero |
| StringUtils.PadLeft | firmware/usbflashprog/hal/string.cpp:102-104 | the base-2 padding loop gives the `setw` padding |
| StringUtils.FromInt | firmware/usbflashprog/hal/string.cpp:82-115 | hexadecimal, octal and binary of the 32-bit unsigned value, decimal with its sign, each padded to `digits` with `fill`; any other base prints plain decimal |
| StringUtils.FormattedExamples | firmware/usbflashprog/test/hal/string_test.cpp:113-133 | " ABC", "0-21", "00001010", "   0" and "10" for the tests' arguments |
| StringUtils.BinaryDigits | firmware/usbflashprog/hal/string.cpp:94-106 | binary output reads back as the unsigned value and starts with '1' unless the value is 0 |
| StringUtils.UnsupportedBase | firmware/usbflashprog/hal/string.cpp:110-112 | any base other than 2, 8, 10 and 16 prints plain decimal |
| Runner.ReadBytes | firmware/usbflashprog/modules/runner.cpp:109-120 | the parameter bytes are kept only when a non-zero count was asked for and all of them arrived |
| Runner.Frame | firmware/usbflashprog/modules/runner.cpp:93-104 | the command starts with the opcode byte; it carries parameter bytes exactly when the opcode is known, takes parameters and all arrived |
| Runner.FrameAccepted | firmware/usbflashprog/modules/runner.cpp:127-135 | a frame passes the check iff its opcode is in the table and it takes no parameters or all of them arrived |
| Runner.Ack | firmware/usbflashprog/modules/runner.cpp:133-137 | the one-byte reply reads as Ok exactly for a success |
| Runner.WordReply | firmware/usbflashprog/modules/runner.cpp:341-347 | a 3-byte Ok reply whose word parameter reads back as the word sent |
| Runner.ByteReply | firmware/usbflashprog/modules/runner.cpp:348-354 | a 2-byte Ok reply whose byte parameter reads back as the byte sent |
| Runner.ReplyCount | firmware/usbflashprog/modules/runner.cpp:136-149 | apart from Nop, a handled opcode belongs to exactly one half of the dispatch |
| Runner.PowerBusCount | firmware/usbflashprog/modules/runner.cpp:139-143 | the regulator and bus handlers take disjoint sets of opcodes |
| Runner.DecodeFlagsRoundTrip | firmware/usbflashprog/modules/runner.cpp:421-436 | decoding the flags byte the host encodes gives back the five flags and keeps the timings |
| Runner.DecodeFlagsAsWrittenUsesBit0 | firmware/usbflashprog/modules/runner.cpp:429-433 | as written, every flag is bit 0 of the byte |
| Runner.DecodeFlagsAsWrittenCounterexample | firmware/usbflashprog/modules/runner.cpp:430 | the byte 0x02 asks for programming with VPP on, which the code as written turns off |
| Runner.SettledFlagsAllBit0 | firmware/usbflashprog/modules/runner.cpp:421-436 | as written, a settings-flags command keeps the timings and sets all five flags to bit 0 of the byte sent |
| Runner.DecodeFlags | firmware/usbflashprog/modules/runner.cpp:421-436 | the intended decoding, flag k from bit k of the byte |
| Runner.DecodeFlagsAsWritten | firmware/usbflashprog/modules/runner.cpp:429-433 | the decoding as written, each test `b & mask != 0` taking `b & 1` |
| Runner.Settled | firmware/usbflashprog/modules/runner.cpp:407-440 | the settings after tWP, tWC or flags commands, flags decoded as written |
| Runner.Runner.NeedsWrite | firmware/usbflashprog/modules/runner.cpp:609-612 | a write is done unless skip-0xFF is set and the value passes the written empty test |
| Runner.IsEmptyDataAsWrittenCounterexample | firmware/usbflashprog/modules/runner.cpp:607 | as written, 0x01 counts as erased and 0xFE does not |
| Runner.IsEmptyDataByte | firmware/usbflashprog/modules/runner.cpp:602-608 | the intended test holds for the byte 0xFF only |
| Runner.IsEmptyDataAsWrittenOdd | firmware/usbflashprog/modules/runner.cpp:602-608 | as written, a byte parameter counts as erased exactly when it is odd |
| Runner.IsEmptyData | firmware/usbflashprog/modules/runner.cpp:602-608 | the intended empty test: 0xFFFF for a word, 0xFF for a byte |
| Runner.IsEmptyDataAsWritten | firmware/usbflashprog/modules/runner.cpp:607 | the empty test as written: the word 0xFFFF, or an odd byte |
| Runner.Runner.constructor | firmware/usbflashprog/modules/runner.cpp:26-34 | no command, initial settings, no replies, fresh buses, and each regulator set once to its initial voltage |
| Runner.Runner.Loop | firmware/usbflashprog/modules/runner.cpp:93-107 | on a timeout nothing happens: command, settings, replies, regulator traces and buses are as before; otherwise the command is the assembled frame and it is answered as `runCommand_` promises, the settings being updated with the flags as the code decodes them, and a device opcode makes exactly its handler's regulator calls |
| Runner.Runner.RunCommand | firmware/usbflashprog/modules/runner.cpp:127-150 | an empty command and a refused frame leave settings, regulator traces and buses as they were, the refused frame getting one Nok; Nop gets one Ok; any other accepted frame updates the settings for its opcode (flags as the code decodes them) and gets one reply iff some handler takes it; an accepted opcode that is not a regulator command makes exactly the regulator calls of its device handler |
| Runner.Runner.RunHandlers | firmware/usbflashprog/modules/runner.cpp:138-149 | the handlers after the Nop test: settings updated for the opcode, one reply iff some handler takes it, and outside the regulator commands exactly the device handler's regulator calls |
| Runner.Runner.RunPowerAndBus | firmware/usbflashprog/modules/runner.cpp:139-143 | exactly one reply when the opcode is a regulator or bus opcode, none otherwise |
| Runner.Runner.RunDevice | firmware/usbflashprog/modules/runner.cpp:145-148 | settings updated for the opcode, flags as the code decodes them; exactly one reply for a settings, read, write or verify opcode; the VDD and VPP traces grow by exactly the calls the read, write or verify handler makes (`DeviceVddCalls`, `DeviceVppCalls`) |
| Runner.Runner.RunVdd | firmware/usbflashprog/modules/runner.cpp:152-209 | measurements answered with Ok and the two value bytes, the other VDD commands with Ok, other opcodes not at all; on/off, setV with the parameter bytes, calibration start, calibration save followed by setV of the initial voltage, and the VPP switch with its Boolean are each recorded as the regulator call they make, and no other opcode calls VDD |
| Runner.Runner.RunVpp | firmware/usbflashprog/modules/runner.cpp:211-288 | the same replies for the VPP commands; on/off, setV, calibration start and save, and the switches onto A9, A18, CE, OE and WE with their Boolean are each recorded as the regulator call they make, and no other opcode calls VPP |
| Runner.Runner.RunCtrlBus | firmware/usbflashprog/modules/runner.cpp:290-312 | CE, OE and WE take the Boolean parameter on a configured bus and are answered Ok; other opcodes leave the bus alone |
| Runner.Runner.RunDataBus | firmware/usbflashprog/modules/runner.cpp:314-358 | clear writes 0, set writes the word parameter, each answered Ok iff the bus is configured; get answers with the word read from the bus |
| Runner.Runner.RunAddrBus | firmware/usbflashprog/modules/runner.cpp:360-405 | clear, increment and the three set commands give the new address on a configured bus and are answered Ok iff it is configured; other opcodes change nothing |
| Runner.Runner.RunDeviceSettings | firmware/usbflashprog/modules/runner.cpp:407-440 | tWP and tWC take the double-word parameter, the flags byte is decoded as written so that every flag is its bit 0, each answered Ok; other opcodes change nothing |
| Runner.Runner.DeviceReadValue | firmware/usbflashprog/modules/runner.cpp:523-538 | the value read from the bus (word or low byte), with OE left released; with OE doubling as VPP, VDD is switched off the VPP line before the read and back after it, and no other regulator call is made |
| Runner.Runner.DeviceWriteValue | firmware/usbflashprog/modules/runner.cpp:540-577 | succeeds iff the data bus is configured, which then holds the parameter; WE ends on the level the pulse polarity says; when programming with VPP, VDD is switched off the VPP line and VPP turned on before the pulse, and VPP turned off and VDD switched back after it |
| Runner.Runner.PulseWE | firmware/usbflashprog/modules/runner.cpp:556-568 | WE ends high for a positive pulse and low otherwise |
| Runner.Runner.DeviceWriteAndVerify | firmware/usbflashprog/modules/runner.cpp:598-624 | succeeds iff the write, when needed, succeeded and the value read back equals the parameter (low bytes in 8-bit mode); under skip-0xFF a value that passes the written empty test (any odd byte, or the word 0xFFFF) is not written; WE ends raised for the CE-tied pin after a successful write, else on the pulse level, and OE released; the regulator calls are those of the write, when done, then those of the read-back, when reached |
| Runner.Runner.WriteUnlessEmpty | firmware/usbflashprog/modules/runner.cpp:601-612 | the parameter is written unless skip-0xFF is set and it passes the written empty test (any odd byte, or the word 0xFFFF); fails only when a needed write fails; WE is pulsed and the VPP switching made only for a write |
| Runner.Runner.DeviceVerifyValue | firmware/usbflashprog/modules/runner.cpp:579-596 | succeeds iff the value read back equals the parameter (low bytes in 8-bit mode), with OE left released and the read's VDD switching made |
| Runner.Runner.RunDeviceRead | firmware/usbflashprog/modules/runner.cpp:442-457 | answers with the word read and advances the address, or Nok when the address bus is not configured; the read's VDD switching is made; other opcodes change nothing |
| Runner.Runner.RunDeviceWrite | firmware/usbflashprog/modules/runner.cpp:475-486 | Ok iff write-and-verify succeeded and the address advanced; its regulator calls are made; other opcodes change nothing |
| Runner.Runner.RunDeviceVerify | firmware/usbflashprog/modules/runner.cpp:499-510 | Ok iff the word read back equals the parameter and the address advanced; the read's VDD switching is made; other opcodes change nothing |
| Runner.DeviceCallsRestore | firmware/usbflashprog/modules/runner.cpp:523-577 | every regulator switch `deviceRead_` and `deviceWrite_` make is undone by their last call: VDD ends back on the VPP line and VPP ends off, and VPP is switched exactly when VDD is for a write |
| FwDevice.FlagsByte | firmware/usbflashprog/modules/device.cpp:267-272 | the byte a host sends for a set of flags uses bits 0-5 only |
| FwDevice.FlagsRoundTrip | firmware/usbflashprog/modules/device.cpp:274-279 | decoding the byte of a set of flags gives back the same flags |
| FwDevice.FlagsByteOfFlags | firmware/usbflashprog/modules/device.cpp:274-279 | decoding then encoding keeps bits 0-5 and drops bits 6 and 7 |
| FwDevice.ConfiguredRoundTrip | firmware/usbflashprog/modules/device.cpp:264-282 | `configure` takes the flags from the low byte and the algorithm from the high byte, keeping the timings |
| FwDevice.WordHalves | firmware/usbflashprog/modules/device.cpp:265-266 | the low and high bytes of a word give back the bytes it was built from |
| FwDevice.AddrNext | firmware/usbflashprog/modules/device.cpp:216-218 | an increment moves to the next address, wrapping at 32 bits |
| FwDevice.MaskedTwice | firmware/usbflashprog/modules/device.cpp:719-722 | masking to the low byte is idempotent and fits a byte |
| FwDevice.CellBytes | firmware/usbflashprog/modules/device.cpp:385-390 | two bytes per value in 16-bit mode, one otherwise |
| FwDevice.Words | firmware/usbflashprog/modules/device.cpp:411-419 | one value per byte, or per pair of bytes in 16-bit mode |
| FwDevice.Padded | firmware/usbflashprog/modules/device.cpp:411-419 | the bytes the loop reads: the buffer, plus the byte found past its end when a 16-bit buffer has an odd length; its length is then even and its prefix is the buffer |
| FwDevice.PaddedWords | firmware/usbflashprog/modules/device.cpp:411-419 | an odd 16-bit buffer of n bytes gives (n+1)/2 values, the last built from its final byte and the byte past it |
| FwDevice.Masked | firmware/usbflashprog/modules/device.cpp:719-722 | a value as compared: whole in 16-bit mode, its low byte otherwise |
| FwDevice.Empty | firmware/usbflashprog/modules/device.cpp:413-418 | the erased value: 0xFFFF in 16-bit mode, 0xFF otherwise |
| FwDevice.ReadImage | firmware/usbflashprog/modules/device.cpp:382-390 | the bytes `read` returns for `count` cells from the start address |
| FwDevice.Store | firmware/usbflashprog/modules/device.cpp:656-697 | a write cycle never changes the size of the chip |
| FwDevice.Put | firmware/usbflashprog/modules/device.cpp:421-427 | writing a value, or skipping it, keeps the size of the chip |
| FwDevice.Programmed | firmware/usbflashprog/modules/device.cpp:412-440 | writing a run of values keeps the size of the chip |
| FwDevice.Blank | firmware/usbflashprog/modules/device.cpp:730 | a blank check compares every cell with 0xFFFF |
| FwDevice.ProgramFails | firmware/usbflashprog/modules/device.cpp:420-434 | a write that stops at a value failing its status check or its read-back reports failure, with that value written and the address on it |
| FwDevice.ProgramSucceeds | firmware/usbflashprog/modules/device.cpp:412-441 | a write whose every value passes its status check and read-back reports success with every value written |
| FwDevice.ProgrammedNext | firmware/usbflashprog/modules/device.cpp:420-434 | value n is written onto the memory left by the first n, and its read-back is of that cell |
| FwDevice.ProgramAdvance | firmware/usbflashprog/modules/device.cpp:412-440 | after value n the run of passing values grows by one, or the write has its failing outcome |
| FwDevice.StepsExtend | firmware/usbflashprog/modules/device.cpp:412-440 | one more passing value extends the passing run |
| FwDevice.StepOkStatus | firmware/usbflashprog/modules/device.cpp:685-690 | under the Intel 28F algorithm a written value passes iff a status byte is answered for it, its bits 1 to 7 read 0x80 and its read-back passes; under any other algorithm only the read-back counts |
| FwDevice.MatchFails | firmware/usbflashprog/modules/device.cpp:515-518 | a comparison stopping at the first mismatch reports failure with the address on it |
| FwDevice.MatchExtend | firmware/usbflashprog/modules/device.cpp:508-524 | one more match extends the matching run |
| FwDevice.MatchSucceeds | firmware/usbflashprog/modules/device.cpp:497-526 | a comparison matching every value reports success with the address past them |
| FwDevice.IdFields | firmware/usbflashprog/modules/device.cpp:600-604 | the identifier's halves give back manufacturer and device |
| FwDevice.ReadImageCell | firmware/usbflashprog/modules/device.cpp:382-390 | the read result holds, for cell k, its high byte then its low byte in 16-bit mode and its low byte otherwise |
| FwDevice.ReadImageLength | firmware/usbflashprog/modules/device.cpp:382-390 | the read result has two bytes per cell in 16-bit mode and one otherwise |
| FwDevice.ProgrammedCell | firmware/usbflashprog/modules/device.cpp:421-427 | a value not skipped ends in its cell unless a later value goes to the same address |
| FwDevice.ProgrammedKeeps | firmware/usbflashprog/modules/device.cpp:421-427 | a write changes no cell outside the addresses of the values it writes |
| FwDevice.WrittenVerifies | firmware/usbflashprog/modules/device.cpp:421-434 | a value that is written always verifies when its cell exists |
| FwDevice.SkippedVerifiesIffErased | firmware/usbflashprog/modules/device.cpp:421-434 | a skipped erased value is still verified, and passes iff its cell is already erased |
| FwDevice.Device.constructor | firmware/usbflashprog/modules/device.cpp:35-45 | zero timings, every flag off, unknown algorithm |
| FwDevice.Device.SetTwp | firmware/usbflashprog/modules/device.cpp:256-258 | only tWP changes |
| FwDevice.Device.SetTwc | firmware/usbflashprog/modules/device.cpp:260-262 | only tWC changes |
| FwDevice.Device.Configure | firmware/usbflashprog/modules/device.cpp:264-282 | flags and algorithm decoded from the word, timings kept |
| FwDevice.Device.AddrInc | firmware/usbflashprog/modules/device.cpp:216-218 | succeeds iff the bus is configured, and then the address moves on by one |
| FwDevice.Device.AddrClr | firmware/usbflashprog/modules/device.cpp:212-214 | succeeds iff the bus is configured, and then the address is 0 |
| FwDevice.Device.AddrSet | firmware/usbflashprog/modules/device.cpp:220-222 | succeeds iff the bus is configured, and then the address is the value |
| FwDevice.Device.ReadCell | firmware/usbflashprog/modules/device.cpp:634-654 | the addressed cell, masked to a byte outside 16-bit mode; 0 without a configured bus |
| FwDevice.Device.WriteCell | firmware/usbflashprog/modules/device.cpp:656-697 | stores the value (low byte outside 16-bit mode) at the address iff the bus is configured; succeeds iff the bus is configured and, for the Intel 28F algorithm, the status byte read after it masked with 0xFE is 0x80 (`checkStatus_`, lines 790-805) |
| FwDevice.Device.VerifyCell | firmware/usbflashprog/modules/device.cpp:699-725 | true iff the value read equals the expected one, compared on low bytes outside 16-bit mode |
| FwDevice.Device.Read | firmware/usbflashprog/modules/device.cpp:377-398 | empty for no count or an address failure; otherwise the bytes of `count` cells from the address, which moves past them |
| FwDevice.Device.Write | firmware/usbflashprog/modules/device.cpp:400-442 | fails unchanged when the data are shorter than `count`; otherwise has the write outcome over the buffer's values, an odd 16-bit buffer taking as its last low byte the byte found past its end: success iff every value passes its status check and read-back, else stopped at the first failure |
| FwDevice.Device.ProgramBuffer | firmware/usbflashprog/modules/device.cpp:409-441 | the write outcome over the values of an even-length (in 16-bit mode) buffer, with the status bytes the chip answers |
| FwDevice.Device.ProgramNext | firmware/usbflashprog/modules/device.cpp:412-439 | value n is written (or skipped) onto the first n and reports its status check and read-back |
| FwDevice.Device.FetchWord | firmware/usbflashprog/modules/device.cpp:413-419 | the value at byte i (a pair of bytes, high first, in 16-bit mode) and whether it is the erased value |
| FwDevice.Device.ProgramStep | firmware/usbflashprog/modules/device.cpp:420-439 | write and status check unless skipped, read back when asked, then advance; false at the first failing part |
| FwDevice.Device.Verify | firmware/usbflashprog/modules/device.cpp:497-526 | fails when the data are shorter than `count`; otherwise, an odd 16-bit buffer taking the byte found past its end as its last low byte, success iff every value matches its cell, else stopped at the first mismatch |
| FwDevice.Device.VerifyNext | firmware/usbflashprog/modules/device.cpp:508-524 | value n is compared with its cell, then the address advances; on a mismatch the comparison has its failing outcome |
| FwDevice.Device.BlankCheck | firmware/usbflashprog/modules/device.cpp:548-566 | success iff every cell of the range reads erased, else stopped at the first that does not |
| FwDevice.Device.GetId | firmware/usbflashprog/modules/device.cpp:568-608 | fails when the chip's answers equal the cells at 0x200 and 0x201; otherwise the manufacturer in the high half and the device in the low half |
| FwDevice.Device.Erase | firmware/usbflashprog/modules/device.cpp:528-546 | the EPROM pulse (address cleared) or a flash erase command (address left on the table's last command address), the Intel 28F one also needing a passing status byte; a successful erase leaves every cell erased; any other algorithm, or an unconfigured bus, fails and changes nothing |
| FwDevice.Device.Protect | firmware/usbflashprog/modules/device.cpp:610-632 | only the 28C64 and 28C256 algorithms can protect or unprotect, and only on a configured bus; the address then ends on the sequence's last command address, else it is unchanged |
| Emulator.NotPowerOfTwoMeaning | software/usbflashprog/test/emulator/emulator.cpp:113 | `value & (value - 1)` is non-zero exactly for a non-zero byte that is not a power of two |
| Emulator.RoundedSize | software/usbflashprog/test/emulator/emulator.cpp:110-120 | a power of two up to 128 that holds the value and is less than twice it, or 128 for larger values |
| Emulator.RoundedByExponent | software/usbflashprog/test/emulator/emulator.cpp:116-119 | the exponent the rounding loop stops at, capped at 7, gives the rounded size |
| Emulator.RoundedSizeLeast | software/usbflashprog/test/emulator/emulator.cpp:110-120 | no smaller buffer size holds the value |
| Emulator.BufferSizeFor | software/usbflashprog/test/emulator/emulator.cpp:110-124 | a buffer size; the rounded size, and at least 2 in 16-bit mode |
| Emulator.BufferSizeKept | software/usbflashprog/test/emulator/emulator.cpp:110-124 | a size that already is a buffer size is kept |
| Emulator.Emulator.constructor | software/usbflashprog/test/emulator/emulator.cpp:41-60 | closed, no error, address 0, buffer size 1, times 1, every flag off, unknown algorithm |
| Emulator.Emulator.Open | software/usbflashprog/test/emulator/emulator.cpp:70-77 | fails for an empty path (after closing an open port); otherwise running with the error cleared |
| Emulator.Emulator.Close | software/usbflashprog/test/emulator/emulator.cpp:79-83 | not running, error cleared, no path |
| Emulator.Emulator.Nop | software/usbflashprog/test/emulator/emulator.cpp:126-132 | succeeds iff running with no earlier error; a failure sets the error |
| Emulator.Emulator.AddrClr | software/usbflashprog/test/emulator/emulator.cpp:337-345 | sets the address to 0 unless blocked; blocked calls fail and set the error |
| Emulator.Emulator.AddrInc | software/usbflashprog/test/emulator/emulator.cpp:347-355 | adds one to the address (wrapping at 32 bits) unless blocked |
| Emulator.Emulator.AddrSet | software/usbflashprog/test/emulator/emulator.cpp:357-366 | sets the address unless blocked; address 0 behaves as `addrClr` |
| Emulator.Emulator.SetBufferSize | software/usbflashprog/test/emulator/emulator.cpp:110-124 | the new buffer size is the rounding of the request (0 as 1), at least 2 in 16-bit mode |
| Emulator.Emulator.NextPowerOfTwo | software/usbflashprog/test/emulator/emulator.cpp:114-119 | the loop's result is the rounded size |
| Emulator.Emulator.DeviceConfigure | software/usbflashprog/test/emulator/emulator.cpp:452-465 | flags and algorithm stored; a 1-byte buffer becomes 2 in 16-bit mode |
| Emulator.Emulator.WriteCell | software/usbflashprog/test/emulator/emulator.cpp:722-767 | the value stored at the address unless it is erased and skip-0xFF applies |
| Emulator.Emulator.ReadCell | software/usbflashprog/test/emulator/emulator.cpp:695-720 | the addressed cell, its low byte outside 16-bit mode |
| Emulator.Emulator.DeviceWrite | software/usbflashprog/test/emulator/emulator.cpp:501-532 | blocked calls fail and set the error; a buffer of the wrong size is refused unchanged; otherwise success iff every value reads back, else stopped at the first that does not |
| Emulator.Emulator.WriteBuffer | software/usbflashprog/test/emulator/emulator.cpp:509-531 | the write outcome over the values of the buffer, each read back |
| Emulator.Emulator.WriteNext | software/usbflashprog/test/emulator/emulator.cpp:510-529 | value n is written onto the first n and reports its read-back |
| Emulator.Emulator.WriteStep | software/usbflashprog/test/emulator/emulator.cpp:516-528 | write cycle, read-back in the bus width, then the increment only when it matches |
| Emulator.Emulator.DeviceBlankCheck | software/usbflashprog/test/emulator/emulator.cpp:609-632 | blocked calls fail and set the error; otherwise success iff every cell of one buffer reads erased, else stopped at the first that does not |
| EmulatorEprom.Filled | software/usbflashprog/test/emulator/chip.cpp:88-91 | every cell is 0xFFFF |
| EmulatorEprom.AfterPulse | software/usbflashprog/test/emulator/eprom.cpp:46-52 | an overwrite stores the bus value; otherwise bits can only go from 1 to 0 |
| EmulatorEprom.AfterPulseIdempotent | software/usbflashprog/test/emulator/eprom.cpp:49-52 | a repeated AND pulse with the same data changes nothing more |
| EmulatorEprom.ChipEprom.constructor | software/usbflashprog/test/emulator/eprom.cpp:22-25 | empty chip, both counters 0, no previous pulse |
| EmulatorEprom.ChipEprom.SetSize | software/usbflashprog/test/emulator/eprom.cpp:29-36 | the chip has the new size, every cell 0xFFFF, both counters 0 |
| EmulatorEprom.ChipEprom.Write | software/usbflashprog/test/emulator/eprom.cpp:38-56 | nothing beyond the chip; at the previous pulse's address (or the first pulse) the bus value, elsewhere the AND with it |
| EmulatorEprom.ChipEprom.Read | software/usbflashprog/test/emulator/chip.cpp:93-104 | the data bus shows the addressed cell, or 0xFFFF beyond the chip |
| EmulatorEprom.ChipEprom.EmuChip | software/usbflashprog/test/emulator/eprom.cpp:58-126 | reads in read mode; in program mode writes, and the sixth erased-value write at 0 in a row erases the chip while the sixth other write resets both counters |
| BaseChip.AndBits | chip/basechip.cpp:228 | the bitwise AND of the low n bits stays below 2^n |
| BaseChip.AndBelow | chip/basechip.cpp:228 | the AND never exceeds the mask |
| BaseChip.AndLowMask | chip/basechip.cpp:228 | ANDing with 2^k - 1 keeps the value modulo 2^k |
| BaseChip.AddrMask | chip/basechip.cpp:226-234 | for a non-empty memory the fitted address is a cell of it; for an empty one `size - 1` wraps to all ones and the address is kept |
| BaseChip.AddrMaskWraps | chip/basechip.cpp:228 | for a memory of 2^k cells the fitted address is the address modulo 2^k |
| BaseChip.Resized | chip/basechip.cpp:99-104 | the new size, the first cells kept, new cells 0 |
| BaseChip.Filled | chip/basechip.cpp:132-135 | every cell equals the fill value |
| BaseChip.CellAt | chip/basechip.cpp:137-155 | the addressed cell, or 0xFFFF beyond the memory |
| BaseChip.Stored | chip/basechip.cpp:157-168 | only the addressed cell changes, to the data; nothing beyond the memory |
| BaseChip.StoredThenRead | chip/basechip.cpp:137-168 | reading back a stored cell gives the stored value |
| Eeprom28C.Special | chip/eeprom28c/eeprom28c.cpp:278-325 | a write matching the next entry of either sequence is a command write and advances the step, the last entry marks the sequence done; any other write leaves the state |
| Eeprom28C.Run | chip/eeprom28c/eeprom28c.cpp:278-325 | a series of writes keeps the machine in a reachable state |
| Eeprom28C.RunStep | chip/eeprom28c/eeprom28c.cpp:278-325 | a series of writes runs its first write, then the rest |
| Eeprom28C.UnprotectCompletes | chip/eeprom28c/eeprom28c.cpp:304-312 | either unprotect sequence from the idle state completes after its six writes |
| Eeprom28C.RunSix | chip/eeprom28c/eeprom28c.cpp:292-312 | the six writes of an unprotect sequence take the step from idle through 0-4 to done |
| Eeprom28C.ProtectCompletes | chip/eeprom28c/eeprom28c.cpp:313-320 | either protect sequence from the idle state completes after its three writes |
| Eeprom28C.RunThree | chip/eeprom28c/eeprom28c.cpp:292-320 | the three writes of a protect sequence take the step from idle through 0-1 to done |
| Eeprom28C.DoneStaysDone | chip/eeprom28c/eeprom28c.cpp:299-300 | once done, the machine stays done whatever is written |
| Eeprom28C.WriteCycle | chip/eeprom28c/eeprom28c.cpp:266 | the command machine advances; the cell is stored unless it was a command write |
| Eeprom28C.EmuPlain | chip/eeprom28c/eeprom28c.cpp:259-276 | a read cycle drives the data bus with the cell, a write cycle goes through the machine, power or CE off forgets the command, anything else changes nothing |
| Eeprom28C.EmuWorkaround | chip/eeprom28c/eeprom28c.cpp:334-372 | reads are counted and the 65th forgets the command; a write after completion at the first command address goes to the workaround's address, which moves on; a write clears the count; power or CE off forgets the command and the address |
| Eeprom28C.CountedRead | chip/eeprom28c/eeprom28c.cpp:335-346 | a counted read keeps the chip in a reachable state with the same pins |
| Eeprom28C.FixedWrite | chip/eeprom28c/eeprom28c.cpp:347-360 | a fixed-up write keeps the chip in a reachable state with the same pins |
| Eeprom28C.Emu | chip/eeprom28c/eeprom28c.cpp:259-276 | the reaction of the variant in use keeps the state reachable and the pins as they were |
| Eeprom28C.OffResets | chip/eeprom28c/eeprom28c.cpp:267-275 | either variant forgets the command when VDD or CE drops, leaving memory and data bus alone |
| Eeprom28C.PlainWriteStored | chip/eeprom28c/eeprom28c.cpp:263-266 | either variant stores a write that is neither a command nor redirected |
| Eeprom28C.RedirectedWriteStored | chip/eeprom28c/eeprom28c.cpp:350-358 | after completion, a non-command write at the first command address is stored at the workaround's address, which moves on by one |
| Eeprom28C.Reads | chip/eeprom28c/eeprom28c.cpp:335-346 | a run of reads stays in read mode |
| Eeprom28C.ReadsForget | chip/eeprom28c/eeprom28c.cpp:338-346 | reads leave memory alone and count up, and the command is forgotten exactly when the count reaches 65 |
| Eeprom28C.ReadsAfterWrite | chip/eeprom28c/eeprom28c.cpp:338-360 | 65 reads after a write forget the command |
| Eeprom28C.ChipEeprom28C.constructor | chip/eeprom28c/eeprom28c.cpp:244-247 | all pins low, no memory, idle command |
| Eeprom28C.ChipEeprom28C.Resize | chip/basechip.cpp:99-104 | the memory is resized, the first cells kept |
| Eeprom28C.ChipEeprom28C.SetSize | chip/eeprom28c/eeprom28c.cpp:251-257 | the current size changes nothing; a new one gives that many 0xFF cells |
| Eeprom28C.ChipEeprom28C.FillData | chip/basechip.cpp:132-135 | every cell becomes the value |
| Eeprom28C.ChipEeprom28C.Read | chip/basechip.cpp:137-155 | the data bus shows the cell, or 0xFFFF beyond the memory |
| Eeprom28C.ChipEeprom28C.Write | chip/basechip.cpp:157-168 | the memory has the data bus stored at the address, when in range |
| Eeprom28C.ChipEeprom28C.SpecialCommand | chip/eeprom28c/eeprom28c.cpp:278-325 | the new state and the result are those of the command machine |
| Eeprom28C.ChipEeprom28C.WriteCycleOnBuses | chip/eeprom28c/eeprom28c.cpp:266 | the chip after a write cycle |
| Eeprom28C.ChipEeprom28C.ResetCommand | chip/eeprom28c/eeprom28c.cpp:270-274 | the command state is idle |
| Eeprom28C.ChipEeprom28C.EmuChipPlain | chip/eeprom28c/eeprom28c.cpp:259-276 | the plain chip's reaction |
| Eeprom28C.ChipEeprom28C.EmuChipWorkaround | chip/eeprom28c/eeprom28c.cpp:334-372 | the workaround chip's reaction |
| Eeprom28C.ChipEeprom28C.ReadCounted | chip/eeprom28c/eeprom28c.cpp:335-346 | the counted read |
| Eeprom28C.ChipEeprom28C.WriteFixed | chip/eeprom28c/eeprom28c.cpp:347-360 | the fixed-up write |
| Eeprom28C.ChipEeprom28C.EmuChip | chip/eeprom28c/eeprom28c.cpp:259-276 | the reaction of the variant in use |
| Eeprom28C.ChipEeprom28C.SetVdd | chip/basechip.cpp:106-114 | the current level changes nothing; a new one is taken and the chip reacts |
| Eeprom28C.ChipEeprom28C.SetVpp | chip/basechip.cpp:116-124 | the same for VPP |
| Eeprom28C.ChipEeprom28C.SetOe | chip/basechip.cpp:196-204 | the same for OE |
| Eeprom28C.ChipEeprom28C.SetCe | chip/basechip.cpp:206-214 | the same for CE |
| Eeprom28C.ChipEeprom28C.SetWe | chip/basechip.cpp:216-224 | the same for WE |
| Eeprom28C.ChipEeprom28C.SetAddrBus | chip/basechip.cpp:226-234 | the address bus holds the address fitted into the memory |
| Eeprom28C.ChipEeprom28C.SetDataBus | chip/basechip.cpp:236-244 | the current value changes nothing; a new one is taken and the chip reacts |
| Eeprom28C.ChipEeprom28C.GetDataBus | chip/basechip.cpp:246-251 | the chip reacts, then its data bus is returned |
| HostDevice.Device.constructor | software/usbflashprog/backend/devices/device.cpp:22-30 | no port, size 0, 1 us program and cycle times, both options off, sector size 0 |
| HostDevice.Device.SetPort | software/usbflashprog/backend/devices/device.cpp:57-62 | the port becomes the path |
| HostDevice.Device.SetSize | software/usbflashprog/backend/devices/device.cpp:66-73 | a non-zero size is taken, zero is ignored |
| HostDevice.Device.SetTwp | software/usbflashprog/backend/devices/device.cpp:77-84 | a non-zero program time is taken, zero is ignored |
| HostDevice.Device.SetTwc | software/usbflashprog/backend/devices/device.cpp:88-95 | a non-zero cycle time is taken, zero is ignored |
| HostDevice.Device.SetSkipFF | software/usbflashprog/backend/devices/device.cpp:99-104 | the option takes the value |
| HostDevice.Device.SetFastProg | software/usbflashprog/backend/devices/device.cpp:108-113 | the option takes the value |
| HostDevice.Device.SetSectorSize | software/usbflashprog/backend/devices/device.cpp:117-124 | a sector size of 0 stays 0; any other is replaced by the value |
| HostDevice.DefaultRead | software/usbflashprog/backend/devices/device.cpp:135-138 | no data and failure |
| HostDevice.DefaultVerify | software/usbflashprog/backend/devices/device.cpp:147-153 | true exactly when the read succeeded with the buffer's bytes |
| HostDevice.DefaultProgram | software/usbflashprog/backend/devices/device.cpp:140-145 | true exactly when verification was asked for and the read gives the buffer |
| HostDevice.DefaultErase | software/usbflashprog/backend/devices/device.cpp:155-160 | true exactly when the blank check was asked for and passes |
| HostDevice.DefaultsFail | software/usbflashprog/backend/devices/device.cpp:135-153 | with the default read, verify and program always fail |
| Dummy.End | software/usbflashprog/backend/devices/parallel/dummy.cpp:107 | the covered length is the shorter of data and chip |
| Dummy.AfterProgram | software/usbflashprog/backend/devices/parallel/dummy.cpp:112-125 | covered cells take the data except 0xFF bytes under skip-0xFF; cells beyond are kept; fast-program makes no difference to the result |
| Dummy.Erased | software/usbflashprog/backend/devices/parallel/dummy.cpp:175-187 | n cells, all blank |
| Dummy.ProgramThenVerify | software/usbflashprog/backend/devices/parallel/dummy.cpp:104-165 | without skip-0xFF, programming makes the covered cells verify |
| Dummy.SkipThenVerify | software/usbflashprog/backend/devices/parallel/dummy.cpp:121-149 | with skip-0xFF, verification after programming passes exactly when every skipped 0xFF falls on an erased cell |
| Dummy.ProgramIdempotent | software/usbflashprog/backend/devices/parallel/dummy.cpp:112-125 | programming the same data twice equals programming it once |
| Dummy.Dummy.constructor | software/usbflashprog/backend/devices/parallel/dummy.cpp:36-59 | write-protected, 2048 cells, 1000/2000 us times, options off |
| Dummy.Dummy.SetSize | software/usbflashprog/backend/devices/parallel/dummy.cpp:63-69 | the device size follows the base rule, the cells always take the new size and contents |
| Dummy.Dummy.GetId | software/usbflashprog/backend/devices/parallel/dummy.cpp:71-79 | success with manufacturer and device 0x01 |
| Dummy.Dummy.Read | software/usbflashprog/backend/devices/parallel/dummy.cpp:81-102 | success with a copy of all cells |
| Dummy.Dummy.Program | software/usbflashprog/backend/devices/parallel/dummy.cpp:104-134 | refused and nothing changed while protected; otherwise the cells are the programmed ones and the result is true exactly when no verification was asked or it passes |
| Dummy.Dummy.Verify | software/usbflashprog/backend/devices/parallel/dummy.cpp:136-165 | true exactly when every covered cell holds its data byte |
| Dummy.Dummy.Erase | software/usbflashprog/backend/devices/parallel/dummy.cpp:167-196 | refused and nothing changed while protected; otherwise all cells 0xFF and success |
| Dummy.Dummy.BlankCheck | software/usbflashprog/backend/devices/parallel/dummy.cpp:198-227 | true exactly when every cell is 0xFF |
| Dummy.Dummy.Unprotect | software/usbflashprog/backend/devices/parallel/dummy.cpp:229-242 | succeeds exactly on a protected chip; afterwards it is unprotected |
| HexEditor.TableEntries0 | software/usbflashprog/ui/qhexeditor.cpp:29-35 | table entries 0x00-0x1F are the reflected 0xEDB88320 CRC of their index |
| HexEditor.TableEntries1 | software/usbflashprog/ui/qhexeditor.cpp:35-40 | entries 0x20-0x3F likewise |
| HexEditor.TableEntries2 | software/usbflashprog/ui/qhexeditor.cpp:40-45 | entries 0x40-0x5F likewise |
| HexEditor.TableEntries3 | software/usbflashprog/ui/qhexeditor.cpp:46-51 | entries 0x60-0x7F likewise |
| HexEditor.TableEntries4 | software/usbflashprog/ui/qhexeditor.cpp:51-56 | entries 0x80-0x9F likewise |
| HexEditor.TableEntries5 | software/usbflashprog/ui/qhexeditor.cpp:56-61 | entries 0xA0-0xBF likewise |
| HexEditor.TableEntries6 | software/usbflashprog/ui/qhexeditor.cpp:62-67 | entries 0xC0-0xDF likewise |
| HexEditor.TableEntries7 | software/usbflashprog/ui/qhexeditor.cpp:67-72 | entries 0xE0-0xFF likewise |
| HexEditor.Crc32CheckValue | software/usbflashprog/ui/qhexeditor.cpp:316-328 | the CRC-32 of "123456789" is the standard check value 0xCBF43926 |
| HexEditor.Crc32 | software/usbflashprog/ui/qhexeditor.cpp:318-327 | register preset to all ones, one table step per byte, all bits inverted at the end |
| HexEditor.ByteSum | software/usbflashprog/ui/qhexeditor.cpp:321-323 | the sum of the bytes, before masking |
| HexEditor.FullFF | software/usbflashprog/ui/qhexeditor.cpp:319-322 | every byte is 0xFF |
| HexEditor.Add16 | software/usbflashprog/ui/qhexeditor.cpp:323-324 | the ADD16 is below 0x10000 |
| HexEditor.ByteSumAppend | software/usbflashprog/ui/qhexeditor.cpp:321-324 | the byte sum of joined buffers adds up |
| HexEditor.Add16Append | software/usbflashprog/ui/qhexeditor.cpp:321-324 | the ADD16 of joined buffers is the sum of their ADD16s modulo 0x10000 |
| HexEditor.Repeat | software/usbflashprog/ui/qhexeditor.cpp:155 | size copies of the value |
| HexEditor.Fitted | software/usbflashprog/ui/qhexeditor.cpp:179-188 | the new size, the old bytes kept, padding 0xFF |
| HexEditor.Left | software/usbflashprog/ui/qhexeditor.cpp:142 | a prefix of the data, of length min(n, size) |
| HexEditor.Remove | software/usbflashprog/ui/qhexeditor.cpp:290-292 | the removal for positions outside, running past the end, and inside |
| HexEditor.DeleteKeepsLength | software/usbflashprog/ui/qhexeditor.cpp:283-294 | Delete over a selection keeps the buffer length: later bytes move down, 0xFF fills the end |
| HexEditor.BackspaceKeepsLength | software/usbflashprog/ui/qhexeditor.cpp:289-294 | Backspace without a selection removes the byte before the cursor and keeps the length; at position 0 it changes nothing |
| HexEditor.AfterDelete | software/usbflashprog/ui/qhexeditor.cpp:288-294 | the selection removed (the byte before it for Backspace without a selection), 0xFF appended for its length, and the result cut to the editor's size |
| HexEditor.SumRunFacts | software/usbflashprog/ui/qhexeditor.cpp:316-328 | the single pass yields the ADD16, the CRC register and the all-0xFF flag of the buffer |
| HexEditor.SumRunAdd16 | software/usbflashprog/ui/qhexeditor.cpp:323-324 | the running ADD16 is the ADD16 |
| HexEditor.SumRunCrc | software/usbflashprog/ui/qhexeditor.cpp:325 | the running register is the table CRC |
| HexEditor.SumRunFull | software/usbflashprog/ui/qhexeditor.cpp:322 | the running flag is true exactly when all bytes so far are 0xFF |
| HexEditor.Editor.constructor | software/usbflashprog/ui/qhexeditor.cpp:76-100 | unchanged, 1024 bytes of 0xFF, checksums matching |
| HexEditor.Editor.CalculateChecksum | software/usbflashprog/ui/qhexeditor.cpp:316-328 | the ADD16, CRC-32 and all-0xFF fields describe the buffer |
| HexEditor.Editor.SetSize | software/usbflashprog/ui/qhexeditor.cpp:175-194 | the same size changes nothing; a new one fits the buffer and updates the checksums; the changed flag is kept |
| HexEditor.Editor.Fill | software/usbflashprog/ui/qhexeditor.cpp:154-161 | size copies of the value, checksums matching, changed unless the value is 0xFF |
| HexEditor.Editor.PutData | software/usbflashprog/ui/qhexeditor.cpp:140-147 | the first size bytes of the input, checksums matching, changed unless all 0xFF |
| HexEditor.Editor.DeleteKey | software/usbflashprog/ui/qhexeditor.cpp:282-301 | a reversed selection changes nothing; otherwise the buffer after the removal and padding, checksums matching |
| Willem.AddrShift | prog/willem/willem.cpp:392-404 | the data bit enters at bit 0 and the old bits 0-22 move up one |
| Willem.BitsValue | prog/willem/willem.cpp:392-404 | the value of n bits is below 2^n |
| Willem.Scaled | prog/willem/willem.cpp:394 | shifting n places multiplies by 2^n |
| Willem.ShiftInValue | prog/willem/willem.cpp:392-404 | clocking in bits shifts the old contents up by their number, adds their value and keeps 24 bits |
| Willem.ShiftIn24 | prog/willem/willem.cpp:392-404 | 24 clock pulses load any 24-bit address, whatever the register held |
| Willem.ShiftIn | prog/willem/willem.cpp:392-404 | the register after one clock edge per bit: shifted up, the bit put in bit 0, masked to 24 bits |
| Willem.CtrlCallsQuiet | prog/willem/willem.cpp:295-339 | writing the value the port holds calls nothing |
| Willem.CtrlCalls | prog/willem/willem.cpp:295-339 | the chip calls of a control port write: the VPP, OE, VDD, WE and CS blocks in order |
| Willem.CtrlCallsParts | prog/willem/willem.cpp:305-337 | the calls are VPP, OE, VDD, WE then CS, each block calling only its own pin |
| Willem.CtrlCallsSupplies | prog/willem/willem.cpp:306-326 | VPP (inverted) and VDD are driven exactly when their bit changes, to the new level |
| Willem.CtrlCallsOe | prog/willem/willem.cpp:311-321 | OE (inverted) is driven exactly when its bit changes; the address register goes to the bus exactly when OE switches off |
| Willem.CtrlCallsWe | prog/willem/willem.cpp:328-337 | WE and the inverted serial CS are driven exactly when their shared bit changes |
| Willem.VppDriven | prog/willem/willem.cpp:306-309 | SetVPP is called exactly on a change, with the inverted bit |
| Willem.VddDriven | prog/willem/willem.cpp:323-326 | SetVDD is called exactly on a change, with the bit |
| Willem.OeDriven | prog/willem/willem.cpp:311-315 | SetOE is called exactly on a change, with the inverted bit |
| Willem.AddrDriven | prog/willem/willem.cpp:317-320 | SetAddrBus is called exactly when OE goes off, with the register |
| Willem.WeDriven | prog/willem/willem.cpp:328-331 | SetWE is called exactly on a change, with the bit |
| Willem.CsDriven | prog/willem/willem.cpp:334-337 | SerialSetCS is called exactly on a change, with the inverted bit |
| Willem.CtrlCallsIn | prog/willem/willem.cpp:305-337 | a call is made exactly when one of the blocks makes it |
| Willem.WeIsSerialCs | prog/willem/willem.cpp:328-337 | a write that drives WE also drives the serial CS, with the opposite level |
| Willem.SerialPart | prog/willem/willem.cpp:359-382 | with OE off, a rising serial clock reads the chip and SERIAL_DOUT shows it inverted; otherwise the status is kept; only bit 7 ever changes |
| Willem.AddrPart | prog/willem/willem.cpp:386-408 | with OE on, a rising address clock shifts the data bit in; otherwise the register is kept |
| Willem.DataClkPart | prog/willem/willem.cpp:410-435 | a falling data clock loads the chip's low data byte (OE on and ADDR_BUS_DATA high) or shifts the register, and DATA_BUS_SER_IN shows its top bit inverted; otherwise nothing moves |
| Willem.SerIn | prog/willem/willem.cpp:429-433 | DATA_BUS_SER_IN is the inverted top bit and no other bit changes |
| Willem.HdwPart | prog/willem/willem.cpp:438-445 | unless forced, HDW_TEST is set exactly when the address clock is low and VDD on; bits 0-6 are kept |
| Willem.DataStep | prog/willem/willem.cpp:341-351 | the data port takes the value and the control port is kept |
| Willem.DataStepShifts | prog/willem/willem.cpp:386-425 | the address and data registers move exactly on their clock edges, as described |
| Willem.DataStepSerIn | prog/willem/willem.cpp:410-435 | DATA_BUS_SER_IN follows the data register after a falling data clock and is kept otherwise |
| Willem.DataStepKeepsLowBits | prog/willem/willem.cpp:341-446 | bits 0-5 of the status port never change |
| Willem.DataStepHdwTest | prog/willem/willem.cpp:373-445 | the shared HDW_TEST/SERIAL_DOUT bit is set exactly when the serial chip pulled its pin low, or the address clock is low with VDD on |
| Willem.StatusBits | prog/willem/willem.cpp:376-443 | the status bits each part touches compose |
| Willem.DataCallsParts | prog/willem/willem.cpp:352-435 | the calls are bus, serial, address then data-clock calls, and the registers are those of the parts |
| Willem.DataStepSerialCalls | prog/willem/willem.cpp:359-382 | the serial calls happen only with OE off, on the clock edges described |
| Willem.SerialPartCalls | prog/willem/willem.cpp:359-382 | the serial block makes only serial calls, on the edges described |
| Willem.DataStepBusCalls | prog/willem/willem.cpp:352-425 | the data bus follows the port with OE off; with OE on the address goes out after a shift or before a load, and only a load reads the chip |
| Willem.AddrPartCalls | prog/willem/willem.cpp:386-408 | the address block only sets the address bus, after a shift |
| Willem.DataClkCalls | prog/willem/willem.cpp:410-425 | the data clock block reads the chip exactly on a load, after setting the address |
| Willem.LoadShowsTopBit | prog/willem/willem.cpp:415-433 | after a parallel load the status shows the chip's bit 7 inverted |
| Willem.SameDataQuiet | prog/willem/willem.cpp:341-446 | rewriting the same data moves no register and calls only the data bus |
| Willem.WillemProg.constructor | prog/willem/willem.cpp:289-291 | the base's power-on port values and the address register at MAX_ADDR |
| Willem.WillemProg.EmuCtrlPort | prog/willem/willem.cpp:295-339 | the port takes the value and the calls are those of the control write |
| Willem.WillemProg.EmuDataPort | prog/willem/willem.cpp:341-446 | the registers and calls are those of the data step |
| Willem.SerialClock | prog/willem/willem.cpp:359-382 | the serial block's result |
| Willem.AddrClock | prog/willem/willem.cpp:386-408 | the address block's result |
| Willem.DataClock | prog/willem/willem.cpp:410-435 | the data clock block's result |
| Willem.HdwTestBit | prog/willem/willem.cpp:438-445 | the HDW_TEST block's result |
| Misc.SwapAdr | reference/Source/eprom090d/misc.cpp:270-282 | bits 0-14, 16, 17, 19 kept; bit 14 copied to 15; bit 15 moved to 18; bits above 19 cleared |
| Misc.SwapAdrFixed | reference/Source/eprom090d/misc.cpp:270-282 | an address is unchanged exactly when it has no bit above 19 and bits 14, 15, 18 are all clear or all set |
| Misc.FixedBits | reference/Source/eprom090d/misc.cpp:276-280 | the same fact on the three masked parts |
| Misc.SwapAdrInjective | reference/Source/eprom090d/misc.cpp:270-282 | on 20-bit addresses with bit 18 clear the swap is one-to-one |
| Misc.BitLength | reference/Source/eprom090d/misc.cpp:110-114 | the count of halvings lies between the powers of two around n |
| Misc.Pattern | reference/Source/eprom090d/misc.cpp:117 | a shift below 32 gives 2^shift, a larger one has no value |
| Misc.RestoreAfterSave | reference/Source/eprom090d/misc.cpp:149-192 | a restore after a save gives back the settings, and the whole description exactly when the unsaved fields were untouched |
| Misc.SaveThenRestore | reference/Source/eprom090d/misc.cpp:149-192 | restore right after save undoes it |
| Misc.SaveTwiceLoses | reference/Source/eprom090d/misc.cpp:149-176 | a second save keeps the plain settings, losing the originals |
| Misc.Saved | reference/Source/eprom090d/misc.cpp:149-162 | `Epr1` after `saveEpr`: the thirteen settings copied from `Epr` |
| Misc.Plain | reference/Source/eprom090d/misc.cpp:164-175 | `Epr` after `saveEpr`: every option off, cycle 10 and pulse 1, shift 12, the EEPROM flag kept |
| Misc.Restored | reference/Source/eprom090d/misc.cpp:178-192 | `Epr` after `restoreEpr`: the thirteen settings copied back from `Epr1` |
| Misc.ShiftOf | reference/Source/eprom090d/misc.cpp:107-115 | the bit length of the buffer size less two, wrapping in `unsigned int` |
| Misc.PatternTopBit | reference/Source/eprom090d/misc.cpp:105-119 | for two or more cells the pattern is the power of two with twice its value within the size |
| Misc.BitLengthPow2 | reference/Source/eprom090d/misc.cpp:110-114 | 2^k has k+1 binary digits |
| Misc.PatternOfPow2 | reference/Source/eprom090d/misc.cpp:105-119 | a buffer of 2^k cells gets shift k-1, and every address fits the bits shifted out |
| Misc.SmallBufferWraps | reference/Source/eprom090d/misc.cpp:115-117 | under two cells the subtraction wraps and the shift is undefined |
| Misc.Globals.constructor | reference/Source/eprom090d/misc.cpp:149 | the two descriptions as given |
| Misc.Globals.CalcuAdr | reference/Source/eprom090d/misc.cpp:105-119 | the shift follows the buffer size unless disabled, the pattern follows the shift, nothing else changes |
| Misc.Globals.SaveEpr | reference/Source/eprom090d/misc.cpp:149-176 | the settings are saved and the plain ones set |
| Misc.Globals.RestoreEpr | reference/Source/eprom090d/misc.cpp:178-192 | the saved settings are copied back |
| Mcs51.Dout | reference/Source/eprom090d/49Fxxx.cpp:643-655 | each data bit lands on its AT89Cx051 line |
| Mcs51.Din | reference/Source/eprom090d/49Fxxx.cpp:657-669 | each line lands back on its data bit |
| Mcs51.DinDout | reference/Source/eprom090d/49Fxxx.cpp:643-669 | a byte written and read back is unchanged |
| Mcs51.DoutDin | reference/Source/eprom090d/49Fxxx.cpp:643-669 | the two rearrangements are inverses the other way too |
| Mcs51.PopCount | reference/Source/eprom090d/49Fxxx.cpp:643-669 | the bit count is at most 8, 0 only for 0 and 8 only for 0xFF |
| Mcs51.DoutKeepsCount | reference/Source/eprom090d/49Fxxx.cpp:643-669 | the rearrangements keep the number of set bits, so 0x00 and 0xFF pass through |

## Left out

- Hardware and timing: GPIO levels, PWM, ADC capture, `sleep_us`/`ms_delay`/`usDelay`, multicore locking and interrupts. Delays are no-ops; ADC samples, sampled pin levels and serial input are parameters.
- Floating point: `getValueAsFloat`/`setFloat`, `toFloat`/`fromFloat`, and voltage measurement (`measureV_`). Regulator voltages are modelled as `real`.
- `StringUtils::toInt`: a thin wrapper over the C library's `strtol`, which is not part of this model.
- Runner: the VDD and VPP handlers record their replies and, as a trace, the calls they make on each regulator. A requested voltage is kept as the parameter bytes it is decoded from, because the float decoding is left out. How the regulator reacts to each call (`Dc2Dc`, through `vgen_`) and the measured values are not linked to the trace; the measured values are parameters.
- Runner.Runner.Loop, Runner.Runner.RunCommand, Runner.Runner.RunHandlers, Runner.Runner.RunDevice: these state the new settings, how many replies are sent and the regulator calls of the device opcodes. What each reply holds, the calls of the regulator opcodes and the bus state are stated by the handler each opcode goes to (`RunVdd` to `RunDeviceVerify`) and are not repeated in the dispatchers' contracts.
- Runner: the VDD and VPP calls are two separate traces, so how the regulator calls of `deviceRead_` and `deviceWrite_` interleave with each other and with the bus cycles is not recorded; only the order within each trace is.
- Runner.Runner.DeviceWriteAndVerify: the read-back value that `deviceWriteAndVerify_` passes out through `data` is not returned, because no caller uses it.
- Runner: the opcodes that runner.cpp names but the firmware opcode table does not define cannot be received, so their handlers are unreachable in the model. These are the byte variants of the data and device commands (`DataSetB`/`GetB`, `ReadB`/`WriteB`/`VerifyB`).
- Runner: the settings-flags opcode is given the firmware table's `DeviceConfigure` code (0x83), which is what the host sends for it.
- FwDevice: `writeSector` (firmware/usbflashprog/modules/device.cpp:444-495) is not modelled.
- FwDevice: bus setup per operation and the per-algorithm command sequences sent to the chip (`sendCmd_` and its callers) are not modelled, because the command tables they send are not part of this model.
- FwDevice.Device.Write, FwDevice.Device.Verify: for a 16-bit buffer of odd length, `write` and `verify` read one byte past its end, which is undefined in C++. That byte is a parameter (`past`). `ProgramBuffer` is always given the even-length buffer that results.
- FwDevice: the chip is an idealised cell memory. Its identification answers and the status bytes the Intel 28F algorithm reads after each write and after erase are inputs. A write that runs out of given status bytes reads 0x00, which fails the check.
- FwDevice: the VPP and VDD switching that `read_` and `write_` do when programming with VPP or with VPP on OE (device.cpp:640-652, 659-664, 691-695) is not modelled, because the firmware's regulator object is not part of the device model.
- FwDevice.Device.Erase, FwDevice.Device.Protect: the EPROM pulse and the flash and 28C command sequences themselves are reduced to their outcome. The address the command tables leave is a parameter (`tableEnd`), since the tables are not part of this model. When the Intel 28F erase reports a bad status, the cells are left unconstrained.
- Flash.Flash.WriteRaw, Flash.Flash.ReadRaw, Flash.Flash.VerifyRaw, Flash.Flash.Write, Flash.Flash.Read, Flash.Flash.Verify: a block that passes the 32-bit guards but lies outside the flash erases, programs or reads memory that is not part of this model. Its effect on the flash and the bytes read there are parameters (`outside`), so those contracts do not constrain them.
- Flash.Flash.Write, Flash.Flash.Read, Flash.Flash.Verify: lengths within one sector of 2^32, where the page and sector rounding itself wraps, are not modelled.
- Flash: the Pico SDK calls that erase and program the flash (`flash_range_erase`, `flash_range_program`) and the interrupt and multicore locking around them. Erase and program are modelled by their effect on the contents.
- Emulator: the supply and pin calls (`vddCtrl`, `vppOnA9`, `setCE`, ...), `deviceRead`, `deviceVerify`, `deviceWriteSector`, `deviceGetId`, erase and protect, and the command sequences. The attached chip is reduced to its cells.
- Emulator: timeouts and the port list.
- EmulatorEprom: the `static` variable `last_addr` of `ChipEPROM::write` is a field of the chip object. The logging helpers and `randomizeData` are left out.
- BaseChip: logging (`WriteToLog`), `RandomizeData`, the serial-chip base class and its chips, and the DLL export and `_Load` wrappers.
- Eeprom28C: the out-of-bounds read of the three-entry protect sequences at steps 3 and later is taken to match nothing.
- Eeprom28C.EmuWorkaround: the read counter `f_readCount` is an unbounded counter. The source's `int` cannot overflow within the 65 reads that matter.
- Dummy: cancellation and progress signals are left out. The random bytes of `setSize` and of the constructor are parameters.
- Dummy: the 16-bit dummy variant is not modelled.
- HostDevice: the getters and `getInfo` (plain field reads), and the device runner and voltage fields.
- HexEditor: the widget, cursor movement, fonts and options, file `open`/`save`/`saveAs`, `random`, and setMode/setGroupLength.
- HexEditor.Editor.SetSize: sizes are `nat`, so the negative `qint32` sizes the widget could be given are not modelled.
- Willem: the address register is an `int` between 0 and 0xFFFFFF instead of an `unsigned long` masked to 24 bits. This is the same set of values.
- Willem: `BaseProg`'s port dispatch (`SetPort`) and the DLL wrappers are not modelled.
- Misc: the form and I/O routines of misc.cpp (`r_adresx`, `wr_data`, `we_pulse`, message and window updates).
- Misc: only the `Epr` fields that `saveEpr`/`restoreEpr`/`calcu_adr` touch are kept; the rest of the chip description is not modelled.
- Misc.Pattern: a shift by 32 or more is undefined in C and is modelled as no value (`None`).
- The rest of 49Fxxx.cpp, uEprom.cpp and the other eprom090d programming routines: parallel-port bit-banging with delays over global state.
- HC165: the load and clock pulses and their timing are not modelled. Only the sampled levels matter.
- HC595: the RCK, CLR and OE pin pulses and their timing are not modelled. Only the levels clocked onto SIN are recorded.
- The chip emulators of chip/flash28f, flash28sst, flash28i, flash28i16, chip/eprom and chip/sram, the test emulator's flash and EEPROM chips, and the size lookup tables of the host's device classes.
- The CRC table is checked entry by entry against its definition. The table-driven CRC is not proved equal to the bitwise polynomial division beyond the standard check value.

## Findings

The operations (`Runner.Settled`, `Runner.Runner.NeedsWrite`, the `Flash` guards) follow the code as written. Each corrected member is the definition the code evidently intends, with its property proved beside the as-written one.

| source | as written | input that shows it | evidently intended | confidence | as-written member | corrected member |
|---|---|---|---|---|---|---|
| firmware/usbflashprog/modules/runner.cpp:429-433 | `dw & 0x02 != 0` parses as `dw & (0x02 != 0)`, so every settings flag is bit 0 of the byte | flags byte 0x02 (program with VPP): as written, every flag is off | flag k is bit k of the byte | not executed | Runner.DecodeFlagsAsWrittenCounterexample | Runner.DecodeFlagsRoundTrip |
| firmware/usbflashprog/modules/runner.cpp:607 | `wr & 0xFF == 0xFF` parses as `wr & 1`, so in byte mode any odd value counts as erased and is skipped under skip-0xFF | byte 0x01 with skip-0xFF: as written, it is not written | only 0xFF counts as erased | not executed | Runner.IsEmptyDataAsWrittenCounterexample | Runner.IsEmptyDataByte |
| firmware/usbflashprog/hal/flash.cpp:60 | the range guard `offset + len > PICO_FLASH_SIZE_BYTES` is computed in 32-bit `size_t` and wraps | `write` of 3 MiB: the offset wraps to 0xFFF00000, and offset + len wraps to 2 MiB, so the guard passes | reject a block that does not end inside the flash | not executed | Flash.OutOfRangeAsWrittenCounterexample | Flash.OutOfRangeExact |
