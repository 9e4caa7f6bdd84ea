/** Fixed-width integers, bytes and the faults shared by the plain memory, the
    memory-mapped I/O decorator and the emulator set-up. Go's fixed-width
    integer types are subset types of `int`; wherever the Go code wraps around,
    the model says so explicitly. */
module Machine {

  const TWO_32: int := 0x1_0000_0000
  const TWO_64: int := 0x1_0000_0000_0000_0000
  /** The largest Go `int` on a 64-bit platform. */
  const MAX_INT64: int := 0x7fff_ffff_ffff_ffff

  type Byte = b: int | 0 <= b < 0x100
  type Uint32 = x: int | 0 <= x < 0x1_0000_0000
  type Int32 = x: int | -0x8000_0000 <= x < 0x8000_0000
  type Uint64 = x: int | 0 <= x < 0x1_0000_0000_0000_0000

  datatype Option<+T> = None | Some(value: T)

  /** The faults a memory operation can report. */
  datatype Error =
    | AccessViolation(location: nat, numBytes: nat, wasRead: bool)
      // the memory package's access-violation fault
    | StreamFault(code: nat)
      // whatever error the input stream's Read reports, passed on verbatim
    | EndOfStream
      // the input stream is exhausted
    | LengthOutOfRange
      // Go's run-time panic on `make([]byte, n)` with n past its allocation
      // limit: the Go program stops there; the model reports it as this outcome

  /** A fresh buffer of `n` zero bytes (Go's `make([]byte, n)`). */
  function Zeros(n: nat): seq<Byte>
  {
    seq(n, _ => 0)
  }

  /** Go's `uint32(v)` for an `int32` value: two's-complement reinterpretation.
      The result agrees with `v` modulo 2^32 and converts back to `v`. */
  function ToUint32(v: Int32): (u: Uint32)
    ensures u % TWO_32 == v % TWO_32
    ensures ToInt32(u) == v
  {
    if v < 0 then v + TWO_32 else v
  }

  /** Go's `int32(u)` for a `uint32` value. */
  function ToInt32(u: Uint32): (v: Int32)
    ensures v % TWO_32 == u % TWO_32
  {
    if u < 0x8000_0000 then u else u - TWO_32
  }
}
