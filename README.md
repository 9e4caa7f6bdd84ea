# CS241 MIPS emulator: memory-mapped stdin and session set-up, in Dafny

This project models two parts of the `emulator` package of a CS241 MIPS
emulator written in Go.

**Memory-mapped I/O** (`memorymappedio.dfy`, module `MappedIO`). A
`MemoryMappedIO` wraps a backing memory and an input stream. The 4-byte word
at `StdinRead = 0xffff0004` is the standard-input device:

- a one-byte read of the word's first byte takes one byte from the input;
- one-byte reads of its other three bytes give 0;
- a raw read whose span straddles an edge of the word is an access violation,
  decided before anything else happens;
- a raw read starting at the word is the input byte followed by zeros, not
  backed;
- a raw read starting in the word's tail is all zeros, not backed, unless its
  length wraps its span past 2^64, in which case Go's `make` of the zero
  buffer panics;
- every other read, and every write, is the backing memory's.

The end of a raw read, `startIndex + numBytes - 1`, is computed in 64-bit
unsigned arithmetic, and the model keeps the wrap-around (`EndIndex`). The
route of each read is a closed variant (`Route`: `Crossing`, `StdinByte`,
`StdinTail`, `MakePanics`, `Plain`). The methods of the `MemoryMappedIO`
class are proved against it. The lemma `RouteRawBySpan` characterises it
geometrically, in both directions, for every non-empty span that does not
wrap. `RouteRawEmpty` routes every empty span (rejected only at address 0)
and `RouteRawWrapping` every span that wraps past 2^64 (never rejected, even
when it covers the whole stdin word).

The input stream is a class holding a fixed script of one-byte read results
and a cursor that counts the reads made. "Exactly one read of the input" is
stated as "the cursor advanced by one".

**Session set-up** (`emulator.dfy`, module `Emulation`). The `Emulator` class
holds the byte order, the Hi, Low and Pc registers, an array of 32 general
registers and a plain memory:

- `NewZeroed` zeroes everything, makes register 0 the zero register and
  picks big-endian byte order;
- `NewTwoInts` puts two `int32` values, reinterpreted as `uint32`, in
  registers 1 and 2;
- `NewArrayInts` stores the values as big-endian words right after the
  program, with register 1 holding their address and register 2 their count;
- `SetupForCs241` loads the program at address 0 and sets register 31 to
  0xFFFFFFFF and register 30 to the memory size.

The final memory is stated as a whole (`TwoIntsImage`, `ArrayImage`). The
lemmas prove that each value reads back from its slot.

Shared pieces: `machine.dfy` (fixed-width integer types, faults, two's
complement) and `memory.dfy` (the plain bounds-checked memory, 32-bit word
encoding).

Where the documentation and the code disagree, the model follows the code:

- The doc comments of `NewTwoInts` and `NewArrayInts` say the program is not
  loaded, but `setupForCs241` loads it (emulator/emulator.go:43, :54, :72).
- The emulator's memory is the plain memory, not the mapped one
  (emulator/emulator.go:21-22).
- The comment on `StdoutWrite` calls it the word mapped to writing to
  stdout (emulator/memorymappedio.go:12-13), but no code maps it: writes and
  all reads outside the stdin word simply delegate
  (emulator/memorymappedio.go:73-89).

## Model

| member | source | states |
|---|---|---|
| `MappedIO.CrossesStdinWord` | emulator/memorymappedio.go:55-57 | for a non-empty, non-wrapping span, the boundary test holds iff the span overlaps the stdin word without lying inside it |
| `MappedIO.RouteOneByte` | emulator/memorymappedio.go:35-45 | a one-byte read is plain memory iff it misses the four stdin addresses, reads the input iff it is at StdinRead, and is never rejected |
| `MappedIO.RouteRaw` | emulator/memorymappedio.go:55-73 | an input read asks for at most a word at StdinRead; a zero-filled tail read stays inside the word; a tail read panics in `make` exactly when its span wraps past 2^64 |
| `MappedIO.WrappingReadInTailPanics` | emulator/memorymappedio.go:55-70 | a read of 2^64-1 bytes at StdinRead+1 passes the boundary test and reaches the `make` that panics |
| `MappedIO.TailReadLengths` | emulator/memorymappedio.go:55-70 | a tail read that passes the boundary test asks for at most 3 bytes or for at least 2^64 - StdinReadEnd, so `make` panics exactly on the wrapping ones |
| `MappedIO.RouteRawEmpty` | emulator/memorymappedio.go:55-73 | an empty read is rejected iff it starts at 0, reads the input iff at StdinRead, gives zeros iff in the word's tail, and goes to the backing memory otherwise |
| `MappedIO.RouteRawWrapping` | emulator/memorymappedio.go:55-73 | a read whose span wraps past 2^64 is never rejected: it panics iff it starts in the word's tail and goes to the backing memory otherwise |
| `MappedIO.WrappingReadOverStdinWordIsDelegated` | emulator/memorymappedio.go:55-58 | a wrapping read from 0x10 overlaps the stdin word without lying inside it, yet goes to the backing memory |
| `MappedIO.EndIndex` | emulator/memorymappedio.go:55 | the end index is `start + numBytes - 1` modulo 2^64, and the plain sum when the span neither is empty nor wraps |
| `MappedIO.RouteRawBySpan` | emulator/memorymappedio.go:55-73 | for non-wrapping, non-empty spans: rejected iff the span overlaps the stdin word without lying inside it; input iff inside from the first byte; zeros iff inside from a later byte; backing memory iff it misses the word |
| `MappedIO.StraddlingReadsAreRejected` | emulator/memorymappedio_test.go:96-111 | raw reads (StdinRead+1, 4), (StdinRead, 5) and (StdinRead-1, 2) are access violations |
| `MappedIO.EmptyReadAtZeroIsRejected` | emulator/memorymappedio.go:55-58 | an empty read at 0 wraps its end index to 2^64-1 and is rejected as crossing |
| `MappedIO.EmptyReadAtStdinWordReadsInput` | emulator/memorymappedio.go:61-66 | an empty read at StdinRead is not rejected and takes the input route |
| `MappedIO.WrappingReadAtStdinWordIsDelegated` | emulator/memorymappedio.go:55-73 | a read at StdinRead of 2^64-1 bytes wraps below the word, is not rejected, and the `numBytes <= 4` guard sends it to the backing memory |
| `MappedIO.OneByteReadAgreesWithRawRead` | emulator/memorymappedio.go:35-45 | a one-byte read is routed like a one-byte raw read, which is never rejected |
| `MappedIO.StdoutWordIsPlainMemory` | emulator/memorymappedio.go:13 | every read that starts in and stays within the stdout word goes to the backing memory: no stdout mapping exists |
| `MappedIO.StdinWordBytes` | emulator/memorymappedio.go:62-65 | the stdin read buffer has the requested length, the input byte first and zeros after |
| `MappedIO.FullWordStdinRead` | emulator/memorymappedio_test.go:60-70 | a 4-byte read at the stdin word is `[v, 0, 0, 0]` |
| `MappedIO.InputStream.Read` | emulator/memorymappedio.go:16-18 | one Read returns the next scripted result (or 0 and end-of-stream) and advances the read count by one |
| `MappedIO.MemoryMappedIO.constructor` | emulator/memorymappedio.go:26-30 | the decorator holds the given backing memory and input stream |
| `MappedIO.MemoryMappedIO.ReadOneByte` | emulator/memorymappedio.go:34-46 | at StdinRead: exactly one input read, its byte and error verbatim; StdinRead+1..+3: 0, no error, no input read; elsewhere: the backing memory's byte and fault, no input read |
| `MappedIO.MemoryMappedIO.ReadRaw` | emulator/memorymappedio.go:54-74 | crossing: empty, not backed, AccessViolation(start, n, read), no input read; at the word: one input read, input byte then zeros, not backed, the input's error; in the tail: n zeros, not backed, no error, no input read; in the tail with a wrapping span: the `make` panic as `LengthOutOfRange`, no input read; elsewhere: exactly the backing memory's data, backed flag and fault, no input read |
| `MappedIO.MemoryMappedIO.Size` | emulator/memorymappedio.go:77-79 | the size is the backing memory's |
| `MappedIO.MemoryMappedIO.WriteOneByte` | emulator/memorymappedio.go:82-84 | at every address (stdin and stdout words included) the backing memory's write: same fault, same new contents; the input is unchanged |
| `MappedIO.MemoryMappedIO.WriteRaw` | emulator/memorymappedio.go:87-89 | at every address the backing memory's write: same fault, same new contents; the input is unchanged |
| `Machine.ToUint32` | emulator/emulator.go:47-48 | `uint32(v)` agrees with `v` modulo 2^32 and converts back to `v` |
| `Machine.ToInt32` | emulator/emulator_test.go:58 | `int32(u)` agrees with `u` modulo 2^32 |
| `Memory.EncodeUint32` | emulator/emulator.go:61 | a word is written as four bytes that decode back to the value |
| `Memory.DecodeEncode` | emulator/emulator_test.go:56 | four bytes read as a word encode back to the same four bytes |
| `Emulation.ArrayLayout` | emulator/emulator.go:60-63 | the array region takes four bytes per value |
| `Emulation.ArrayLayoutWord` | emulator/emulator.go:58-63 | value i is the big-endian word at offset 4*i of the array region |
| `Emulation.StoreNextValue` | emulator/emulator.go:60-63 | each loop step writes the next value right after the ones already stored (onLocation = len(program) + 4*k) |
| `Emulation.ProgramEndsWhereArrayBegins` | emulator/emulator.go:58-72 | loading the program at 0 leaves the stored array intact |
| `Emulation.ArrayImageReadsBack` | emulator/emulator_test.go:54-59 | in the final memory the program is at 0, the word at len(program)+4*i reads back as values[i], and the rest is zero |
| `Emulation.Cs241RegisterValues` | emulator/emulator_test.go:94-103 | after set-up only register 0 is a zero register; r1, r2 hold the arguments, r3..r29 read 0, r30 the memory size, r31 0xFFFFFFFF |
| `Emulation.Emulator.NewZeroed` | emulator/emulator.go:17-40 | register 0 is the zero register, registers 1..31, Hi, Low and Pc are ordinary and 0, byte order big-endian, memory is `memorySize` zero bytes |
| `Emulation.Emulator.NewTwoInts` | emulator/emulator.go:44-51 | r1 = uint32(reg1), r2 = uint32(reg2), r3..r29 = 0, r30 = memory size, r31 = 0xFFFFFFFF; only r0 is a zero register and r1, r2 read back as int32 to reg1, reg2; memory is the program then zeros |
| `Emulation.Emulator.NewArrayInts` | emulator/emulator.go:55-69 | r1 = len(program), r2 = len(values), r3..r29 = 0, r30, r31 set, each reading back as such; only r0 is a zero register; memory is the program, the values as big-endian words, then zeros |
| `Emulation.Emulator.SetupForCs241` | emulator/emulator.go:71-75 | the program is written at address 0; registers 31 and 30 are set and no other register changes |

## Left out

- Real stream I/O behind `Readable`: the input is a fixed script of one-byte read results, and the byte count a Read returns is dropped, as the code drops it.
- The `Stdout` field and `Writable`: no code uses them.
- Stdout redirection, access-size and alignment checks, and copying of reads near the stdout word: the code has none of them.
- Aliasing: a backed read returns a copy of the bytes plus the `backed` flag. That writing through a backed buffer changes the memory is not modelled.
- The plain memory library is not part of this model. It is reduced to a bounds-checked byte array: a span fits when `start + numBytes <= size`, and otherwise the fault is an access violation carrying the span. Its exact rules and error values may differ.
- `MappedIO.MemoryMappedIO.ReadRaw`: a tail read whose span wraps past 2^64 makes Go panic and stop; the model returns the outcome `LengthOutOfRange` instead of aborting.
- `Emulation.Emulator.NewTwoInts`: requires the program to fit in memory. The code ignores the error of the program write, and what the memory library does with a span that does not fit is not part of this model.
- `Emulation.Emulator.NewArrayInts`: requires the program and the array to fit in memory, for the same reason (the errors of `WriteUint32` and `WriteRaw` are ignored by the code). Under this requirement, the `uint32` conversions of the array's address and length never truncate.
- `Emulation.Emulator.SetupForCs241`: requires the program to fit in memory, for the same reason.
- The processor library is not part of this model: instruction execution, coprocessors, float registers, the branch-delay flag, and the zero register ignoring writes. Only "register 0 reads 0" is modelled.
