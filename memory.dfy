/** The plain memory the decorator wraps and the emulator loads its program
    into: a bounds-checked, zero-initialised byte array of fixed size. The
    real memory package is not part of this model; its behaviour is reduced
    to "a span that fits is served, one that does not is an access
    violation". Also 32-bit word encoding in either byte order. */
module Memory {
  import opened Machine

  /** What a raw read returns: the bytes, whether they are a live view of
      the memory, and a fault. */
  datatype RawRead = RawRead(data: seq<Byte>, backed: bool, err: Option<Error>)

  /** The fault, if any, for a span of `numBytes` bytes at `start` in a
      memory of `size` bytes. */
  function Fault(start: nat, numBytes: nat, wasRead: bool, size: nat): Option<Error>
  {
    if start + numBytes <= size then None else Some(AccessViolation(start, numBytes, wasRead))
  }

  /** `mem` with `data` copied over it from `start` on. */
  function Overwrite(mem: seq<Byte>, data: seq<Byte>, start: nat): (r: seq<Byte>)
    requires start + |data| <= |mem|
    ensures |r| == |mem|
    ensures r[start..start + |data|] == data
    ensures forall i :: 0 <= i < |mem| && !(start <= i < start + |data|) ==> r[i] == mem[i]
  {
    mem[..start] + data + mem[start + |data|..]
  }

  /** Overwriting the front of a memory keeps everything after the data. */
  lemma OverwriteFront(mem: seq<Byte>, data: seq<Byte>)
    requires |data| <= |mem|
    ensures Overwrite(mem, data, 0) == data + mem[|data|..]
  {
  }

  /** Overwriting the start of a zero region with a word moves the zero
      region up by the word's length. */
  lemma OverwriteZeros(prefix: seq<Byte>, word: seq<Byte>, n: nat)
    requires |word| <= n
    ensures Overwrite(prefix + Zeros(n), word, |prefix|) == prefix + word + Zeros(n - |word|)
  {
  }

  datatype ByteOrder = BigEndian | LittleEndian

  /** `order.PutUint32`: the four bytes of `v`; decoding gives `v` back. */
  function EncodeUint32(order: ByteOrder, v: Uint32): (r: seq<Byte>)
    ensures |r| == 4
    ensures DecodeUint32(order, r) == v
  {
    var w := v / 0x100;
    var w2 := w / 0x100;
    var big := [w2 / 0x100, w2 % 0x100, w % 0x100, v % 0x100];
    if order == BigEndian then big else [big[3], big[2], big[1], big[0]]
  }

  /** `order.Uint32`: the value of four bytes, most significant first for
      big-endian order. */
  function DecodeUint32(order: ByteOrder, bs: seq<Byte>): Uint32
    requires |bs| == 4
  {
    var big: seq<int> := if order == BigEndian then bs else [bs[3], bs[2], bs[1], bs[0]];
    ((big[0] * 0x100 + big[1]) * 0x100 + big[2]) * 0x100 + big[3]
  }

  /** Decoding then encoding gives the four bytes back. */
  lemma DecodeEncode(order: ByteOrder, bs: seq<Byte>)
    requires |bs| == 4
    ensures EncodeUint32(order, DecodeUint32(order, bs)) == bs
  {
  }

  /** A slice-backed memory of fixed size, zeroed when made. */
  class SliceMemory {
    const bytes: array<Byte>

    /** A memory of `size` zero bytes. */
    constructor (size: Uint64)
      ensures fresh(bytes)
      ensures bytes[..] == Zeros(size)
    {
      bytes := new Byte[size](_ => 0);
    }

    function Size(): nat
    {
      bytes.Length
    }

    function ReadOneByte(index: Uint64): (Byte, Option<Error>)
      reads bytes
    {
      if index < bytes.Length then (bytes[index], None)
      else (0, Some(AccessViolation(index, 1, true)))
    }

    /** An in-range read is a live view of the memory (`backed`). */
    function ReadRaw(startIndex: Uint64, numBytes: Uint64): RawRead
      reads bytes
    {
      if startIndex + numBytes <= bytes.Length then
        RawRead(bytes[startIndex..startIndex + numBytes], true, None)
      else
        RawRead([], false, Fault(startIndex, numBytes, true, bytes.Length))
    }

    method WriteOneByte(val: Byte, index: Uint64) returns (err: Option<Error>)
      modifies bytes
      ensures err == Fault(index, 1, false, bytes.Length)
      ensures bytes[..] == if err == None then old(bytes[..])[index := val] else old(bytes[..])
    {
      err := Fault(index, 1, false, bytes.Length);
      if err == None {
        bytes[index] := val;
      }
    }

    method WriteRaw(data: seq<Byte>, startIndex: Uint64) returns (err: Option<Error>)
      modifies bytes
      ensures err == Fault(startIndex, |data|, false, bytes.Length)
      ensures bytes[..] == if err == None then Overwrite(old(bytes[..]), data, startIndex) else old(bytes[..])
    {
      err := Fault(startIndex, |data|, false, bytes.Length);
      if err == None {
        forall k | 0 <= k < |data| {
          bytes[startIndex + k] := data[k];
        }
      }
    }
  }

  /** The memory package's `WriteUint32`: encode `v` in `order` and write the
      four bytes at `location`. */
  method WriteUint32(mem: SliceMemory, order: ByteOrder, v: Uint32, location: Uint64)
    returns (err: Option<Error>)
    modifies mem.bytes
    ensures err == Fault(location, 4, false, mem.bytes.Length)
    ensures mem.bytes[..] ==
      if err == None then Overwrite(old(mem.bytes[..]), EncodeUint32(order, v), location)
      else old(mem.bytes[..])
  {
    err := mem.WriteRaw(EncodeUint32(order, v), location);
  }
}
