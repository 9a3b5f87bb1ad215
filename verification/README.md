# Tesseract command schema and bit reader, in Dafny

This project models two pieces of the Tesseract display's command wire format:

- **The command schema** (`src/DataDefs/DrawCommand.h`). This is the 6-bit opcode enumeration (`CFG_ZLVL` = 0x01 … `DRW_XY_RECT` = 0x09) and the `DrawCommand` header that carries the opcode. It also covers the nine payload structs, whose fields have a C type and a declared wire width in bits. Module `DrawCommandDefs` (file `DrawCommand.dfy`) has:
  - `Opcode`, a datatype with one constructor per enumeration constant;
  - `Schema`, the field table: name, declared width and C type of each field, in declaration order;
  - `Payload`, one constructor per struct, each field keeping its C type;
  - lemmas proving that the table is well formed.
- **The bit reader** (`src/Utilities/TesseractCommonUtils.h`). This is the three overloads of `GetBitCompressedValue`, for 8-, 16- and 32-bit results. Module `TesseractCommonUtils` (file `CommonUtils.dfy`) models each overload as a method, as the code is written:
  - the buffer is a read-only `array<bv8>`;
  - the by-reference `outVal` is an in/out pair: `outVal` goes in, and `outValAfter` is its value when the call returns;
  - each method returns a `Trace`: the indices of `data` it read and the variable shift counts it used, in order;
  - the 8-bit method also returns `returnVal`, the final value of its local accumulator. The code throws this value away. It is `None` when the call returns early at line 11 or line 12, so the accumulator is never computed, and where the model treats the value as undefined: a read past `dataLen` or a shift count of 8 or more.

Module `IntTypes` (file `IntTypes.dfy`) holds the C integer types as bounded newtypes (`uint8`, `uint16`, `uint32`, `size_t`), `Pow2` and `Option`.

The contracts state how the reader actually behaves:
- No overload ever assigns `outVal`. The assignment at line 26 is commented out, and the 16- and 32-bit bodies are only the bounds guard. So the promise in the comment at line 7 is not kept.
- The bounds guard compares the bit count times 8 with a byte count.
- Any `bitOffset` of 8 or more returns early.
- For offsets 1..7 the in-byte offset wraps to 2^64 − `bitOffset`, and that value is then used as a shift count.
- With `numBits` = 0, `bitOffset` = 0 and `dataLen` = 0, the guard lets the call through, and the code reads `data[0]` out of bounds.

`DrawRect`'s declared widths (2 + 8 + 8 + 8 + 8 + 8) sum to 42 payload bits, so with the 6-bit opcode the command is 48 bits long and ends on a byte boundary.

## Model

| member | source | states |
|---|---|---|
| `DrawCommandDefs.Code` | src/DataDefs/DrawCommand.h:7-22 | every opcode value is nonzero and fits the 6-bit opcode field (below 2^6) |
| `DrawCommandDefs.FromCode` | src/DataDefs/DrawCommand.h:10-20 | looking a value up finds a constant exactly when the value is in 0x01..0x09, and the constant found has that value |
| `DrawCommandDefs.FromCodeOfCode` | src/DataDefs/DrawCommand.h:10-20 | looking up a constant's value gives back that constant |
| `DrawCommandDefs.CodeInjective` | src/DataDefs/DrawCommand.h:10-20 | two opcodes have the same value exactly when they are the same constant |
| `DrawCommandDefs.CodesAreOneToNine` | src/DataDefs/DrawCommand.h:8-22 | the list of constants has nine entries, contains every opcode, and the i-th has value i+1: the values are exactly 0x01..0x09, and 0x00 is unused |
| `DrawCommandDefs.StructNameInjective` | src/DataDefs/DrawCommand.h:10-20 | each opcode names its own payload struct; no two opcodes name the same one |
| `DrawCommandDefs.PayloadOpcodeNamesStruct` | src/DataDefs/DrawCommand.h:10-88 | the struct an opcode's comment names is the struct of every payload carrying that opcode |
| `DrawCommandDefs.HeaderFor` | src/DataDefs/DrawCommand.h:24-27 | the header built for a payload holds an opcode below 2^6 that looks up to the payload's own opcode |
| `DrawCommandDefs.WidthsFitContainers` | src/DataDefs/DrawCommand.h:29-88 | every declared width is at least 1 and fits the field's C type (2/8 bits in `uint8_t`, 10/16 in `uint16_t`, 24 in `uint32_t`) |
| `DrawCommandDefs.FieldValuesMatchSchema` | src/DataDefs/DrawCommand.h:29-88 | a payload has one value per schema field, in order, and each is within the range of the field's C type |
| `DrawCommandDefs.LimitIsPow2` | src/DataDefs/DrawCommand.h:29-88 | the range of each C type used by a field is 2^(its size in bits); used by `DeclaredRangeWithinContainer` |
| `DrawCommandDefs.DeclaredRangeWithinContainer` | src/DataDefs/DrawCommand.h:29-88 | for every field, 2^(declared width) is at most the range of its C type, so a value that fits the declared width also fits the field's type |
| `DrawCommandDefs.FieldOrder` | src/DataDefs/DrawCommand.h:29-88 | each schema's field names are the struct's field names in declaration order |
| `DrawCommandDefs.DrawCommandsStartWithDrawMode` | src/DataDefs/DrawCommand.h:64-88 | the first field of each of the three draw commands is `drawMode`, 2 bits wide, held in a byte |
| `DrawCommandDefs.PayloadTotals` | src/DataDefs/DrawCommand.h:29-88 | the declared widths sum to 8, 24, 24, 10, 10, 42, 42, 26 and 42 bits (SetStripZLevel … DrawRect) |
| `DrawCommandDefs.CommandSizes` | src/DataDefs/DrawCommand.h:24-88 | with the 6-bit opcode, commands are 14, 30, 30, 16, 16, 48, 48, 32 and 48 bits long |
| `DrawCommandDefs.ByteAlignedIffNotConfiguration` | src/DataDefs/DrawCommand.h:7-88 | a command ends on a byte boundary exactly when it is not one of the three CFG commands |
| `DrawCommandDefs.SumWidthsWithinContainers` | src/DataDefs/DrawCommand.h:29-88 | if every field's width fits its C type, the declared widths sum to no more than the types' storage |
| `DrawCommandDefs.PayloadFitsStruct` | src/DataDefs/DrawCommand.h:29-88 | no payload declares more bits than its struct's fields store |
| `DrawCommandDefs.TwoBitFieldInRange` | src/DataDefs/DrawCommand.h:49-88 | in a payload that fits its declared widths, the value of any field declared 2 bits wide is at most 3 |
| `DrawCommandDefs.TwoBitFieldsBounded` | src/DataDefs/DrawCommand.h:49-88 | in a payload that fits its declared widths, `quadrant` and every `drawMode` are in 0..3 (from `TwoBitFieldInRange`) |
| `DrawCommandDefs.Schema` | src/DataDefs/DrawCommand.h:29-88 | no contract of its own; `WidthsFitContainers`, `FieldOrder`, `DrawCommandsStartWithDrawMode`, `PayloadTotals`, `CommandSizes` and `PayloadFitsStruct` state its properties |
| `DrawCommandDefs.StructName` | src/DataDefs/DrawCommand.h:10-20 | no contract of its own; `StructNameInjective` and `PayloadOpcodeNamesStruct` state its properties |
| `DrawCommandDefs.PayloadOpcode` | src/DataDefs/DrawCommand.h:10-88 | no contract of its own; `PayloadOpcodeNamesStruct` and `HeaderFor` state its properties |
| `DrawCommandDefs.FieldValues` | src/DataDefs/DrawCommand.h:29-88 | no contract of its own; `FieldValuesMatchSchema` and `TwoBitFieldInRange` state its properties |
| `DrawCommandDefs.Opcode` | src/DataDefs/DrawCommand.h:7-22 | no contract of its own (the enumeration, one constructor per constant); `Code`, `FromCode`, `CodeInjective` and `CodesAreOneToNine` state its properties |
| `DrawCommandDefs.DrawCommand` | src/DataDefs/DrawCommand.h:24-27 | no contract of its own (the header struct and its opcode byte); `HeaderFor` states its properties |
| `DrawCommandDefs.Payload` | src/DataDefs/DrawCommand.h:29-88 | no contract of its own (the nine payload structs); `FieldValuesMatchSchema`, `PayloadOpcodeNamesStruct` and `TwoBitFieldInRange` state its properties |
| `DrawCommandDefs.Container` | src/DataDefs/DrawCommand.h:29-88 | no contract of its own (the C types `uint8_t`, `uint16_t`, `uint32_t` of the fields); `LimitIsPow2` and `WidthsFitContainers` state its properties |
| `DrawCommandDefs.PayloadBits` | src/DataDefs/DrawCommand.h:29-88 | no contract of its own (the sum of a payload's declared widths); `PayloadTotals` and `PayloadFitsStruct` state its properties |
| `DrawCommandDefs.CommandBits` | src/DataDefs/DrawCommand.h:24-88 | no contract of its own (payload bits plus the 6-bit opcode); `CommandSizes` and `ByteAlignedIffNotConfiguration` state its properties |
| `TesseractCommonUtils.GetBitCompressedValue8` | src/Utilities/TesseractCommonUtils.h:9-27 | `outVal` comes back unchanged on every path. The call returns early exactly when the guard at line 11 or line 12 fires, and it then reads nothing. Otherwise it reads `data[0]`, and also `data[1]` with three shift counts of 2^64 − `bitOffset` when `bitOffset` ≠ 0. Every read is in bounds unless `numBits` = `bitOffset` = `dataLen` = 0. Every shift count is below 8 exactly when the call returns early or `bitOffset` = 0. The accumulator is defined exactly when `bitOffset` = 0 and the buffer is non-empty, and it then equals `data[0]` |
| `TesseractCommonUtils.GetBitCompressedValue16` | src/Utilities/TesseractCommonUtils.h:29-32 | `outVal` comes back unchanged and the buffer is not read, whichever way the guard goes |
| `TesseractCommonUtils.GetBitCompressedValue32` | src/Utilities/TesseractCommonUtils.h:34-37 | `outVal` comes back unchanged and the buffer is not read, whichever way the guard goes |
| `TesseractCommonUtils.GuardConservative` | src/Utilities/TesseractCommonUtils.h:11 | whenever the guard lets a call through, `bitOffset + numBits <= dataLen * 8` |
| `TesseractCommonUtils.SurvivorsReadFirstBytes` | src/Utilities/TesseractCommonUtils.h:11-23 | past both guards and with `numBits` ≥ 1, the byte index is 0 and `dataLen` ≥ 8, so `data[0]` and `data[1]` are in bounds |
| `TesseractCommonUtils.GuardAdmitsEmptyBuffer` | src/Utilities/TesseractCommonUtils.h:11-18 | a zero-bit request at offset 0 on an empty buffer passes both guards |
| `TesseractCommonUtils.Rejected` | src/Utilities/TesseractCommonUtils.h:11 | no contract of its own (the guard of lines 11, 31 and 36); `GuardConservative`, `GuardMisjudgesRange` and `GetBitCompressedValue8` state its properties |
| `TesseractCommonUtils.ReturnsEarly` | src/Utilities/TesseractCommonUtils.h:11-12 | no contract of its own; `SurvivorsReadFirstBytes`, `GuardAdmitsEmptyBuffer` and `GetBitCompressedValue8` state its properties |
| `TesseractCommonUtils.BitOffsetInByte` | src/Utilities/TesseractCommonUtils.h:16 | no contract of its own; `BitOffsetInByteWraps` and `BitOffsetInByteDiffers` state its properties |
| `TesseractCommonUtils.ShiftRight` | src/Utilities/TesseractCommonUtils.h:18-22 | a shift by 0 returns its operand unchanged; a count of 8 or more gives 0 (C's own value for a promoted byte up to the width of `int`), and `GetBitCompressedValue8` then reports the accumulator undefined |
| `TesseractCommonUtils.ShiftLeft` | src/Utilities/TesseractCommonUtils.h:23 | a shift by 0 returns its operand unchanged; a count of 8 or more gives 0, and `GetBitCompressedValue8` then reports the accumulator undefined |
| `TesseractCommonUtils.ByteOffset` | src/Utilities/TesseractCommonUtils.h:15 | for offsets below 8 the byte index is 0 |
| `TesseractCommonUtils.BitOffsetInByteWraps` | src/Utilities/TesseractCommonUtils.h:16-18 | for offsets below 8: at 0 the in-byte offset is 0; at 1..7 it is 2^64 − `bitOffset`; it is a valid shift count (below 8) only at offset 0 |
| `TesseractCommonUtils.GuardMisjudgesRange` | src/Utilities/TesseractCommonUtils.h:11-18 | the guard refuses 8 bits from a 1-byte buffer, which fit, and admits 0 bits from an empty buffer, which the corrected check refuses |
| `TesseractCommonUtils.RangeFits` | src/Utilities/TesseractCommonUtils.h:11 | no contract of its own (the corrected bounds check); `RangeFitsIffBytesInBuffer` and `GuardMisjudgesRange` state its properties |
| `TesseractCommonUtils.RangeFitsIffBytesInBuffer` | src/Utilities/TesseractCommonUtils.h:11 | corrected guard: a request of at least one bit passes exactly when its last byte index is below `dataLen`, and then every bit it names lies in the buffer |
| `TesseractCommonUtils.BitInByte` | src/Utilities/TesseractCommonUtils.h:16 | corrected in-byte offset: below 8, and byte index × 8 plus it gives back `bitOffset` |
| `TesseractCommonUtils.BitInByteUnique` | src/Utilities/TesseractCommonUtils.h:15-16 | any split of an offset into a byte index and an in-byte offset below 8 is the one given by `/ 8` and `BitInByte` |
| `TesseractCommonUtils.BitOffsetInByteDiffers` | src/Utilities/TesseractCommonUtils.h:16 | at every offset 1..7 the in-byte offset computed as written differs from the corrected one |

## Findings

| source | as written | input that shows it | evidently intended | confidence | as-written member | corrected member |
|---|---|---|---|---|---|---|
| src/Utilities/TesseractCommonUtils.h:11 | `((bitOffset + numBits) << 3) > dataLen` multiplies a bit count by 8 and compares it with a byte count | `dataLen` = 1, `bitOffset` = 0, `numBits` = 8 is refused although the 8 bits fit; `dataLen` = 0, `bitOffset` = 0, `numBits` = 0 is admitted and line 18 reads `data[0]` | refuse when `bitOffset + numBits > dataLen * 8` (and when no bit is requested) | high, not executed | `TesseractCommonUtils.GuardMisjudgesRange` | `TesseractCommonUtils.RangeFitsIffBytesInBuffer` |
| src/Utilities/TesseractCommonUtils.h:16 | `(byteOffset << 3) - bitOffset` is negative for offsets 1..7 and wraps in `size_t` | `bitOffset` = 3 gives 2^64 − 3, which line 18 uses as a shift count | `bitOffset % 8` | high, not executed | `TesseractCommonUtils.BitOffsetInByteDiffers` | `TesseractCommonUtils.BitInByteUnique` |

The reader methods keep the code as written. The corrected definitions stand beside them and are not used by the methods. The other defects have no corrected half here, because correcting them would mean writing the missing bit extraction. Those defects are the `outVal` that is never assigned (line 26) and the guard-only 16- and 32-bit bodies (lines 29-37). They are stated in the contracts of `GetBitCompressedValue8`, `GetBitCompressedValue16` and `GetBitCompressedValue32`.

## Left out

- The transport bridge, the bus peripheral, network ingress and the LED handling: none of them appears in the two modelled headers, and they are I/O.
- Command encode/decode, a bit writer, multi-byte reads in the 16- and 32-bit overloads, and a bit-order convention: the modelled code implements none of them.
- `#include <Arduino.h>`: its integer typedefs become the newtypes of `IntTypes`, and nothing else is used.
- GetBitCompressedValue8: the requires excludes `size_t` overflow of `(bitOffset + numBits) << 3` at line 11, and the guard is computed on unbounded integers. The 16- and 32-bit overloads compute the same guard on unbounded integers; their behaviour is the same whichever way it goes.
- GetBitCompressedValue8: the raw pointer plus length becomes an array whose length is `dataLen` (a requires). A read past `dataLen` is recorded in the trace and makes `returnVal` undefined, rather than reading whatever memory follows.
- GetBitCompressedValue8: C promotes the byte to `int` before shifting, so a count is undefined only from the width of `int` upwards (16 or 32 bits, depending on the board). The model flags every count of 8 or more. Counts that can occur are either 0 or at least 2^64 − 7 (`BitOffsetInByteWraps`), so the two rules agree on every reachable input.
- `size_t` is taken as 64 bits (`SizeModulus`). On a board with a narrower `size_t`, the wrapped in-byte offset is 2^N − `bitOffset` for that width N, and only that constant changes.
- The buffer stays byte-for-byte unchanged on every call. This holds because no reader has a `modifies` clause, not because of an `ensures`.
- The commented-out mask expression of line 26 is not modelled, because it is not code.
