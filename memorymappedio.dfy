/** Memory-mapped I/O for CS241 MIPS: a decorator over a plain memory that
    maps the 4-byte word at `StdinRead` to the standard input stream. A read
    of the word's first byte takes one byte from the input, reads of its three
    other bytes give zero, a raw read that straddles an edge of the word is an
    access violation, and everything else is served by the backing memory.
    Writes are never redirected: `StdoutWrite` is only a named address. */
module MappedIO {
  import opened Machine
  import opened Memory

  /** The word mapped to reading standard input. */
  const StdinRead: Uint64 := 0xffff_0004
  /** The last byte of that word. */
  const StdinReadEnd: Uint64 := StdinRead + 3
  /** The word named for writing standard output; nothing maps it. */
  const StdoutWrite: Uint64 := 0xffff_000c

  /** Where a read is served from, relative to the stdin word. */
  datatype Route =
    | Crossing   // the span straddles an edge of the word: access violation
    | StdinByte  // the span starts at the word: one byte from the input
    | StdinTail  // the span starts in the word's last three bytes: zeros
    | MakePanics // as StdinTail, but the zero buffer is too long to make: Go panics
    | Plain      // the backing memory serves it

  /** The last address of a raw read, `startIndex + numBytes - 1` computed in
      64-bit unsigned arithmetic, so it wraps around. */
  function EndIndex(startIndex: Uint64, numBytes: Uint64): (e: Uint64)
    ensures e == (startIndex + numBytes - 1) % TWO_64
    ensures 1 <= numBytes && startIndex + numBytes <= TWO_64 ==> e == startIndex + numBytes - 1
  {
    var sum := startIndex + numBytes - 1;
    if sum < 0 then sum + TWO_64
    else if sum >= TWO_64 then sum - TWO_64
    else sum
  }

  /** The span [start, start + numBytes) shares an address with the stdin word. */
  predicate Overlaps(start: nat, numBytes: nat)
  {
    start < StdinRead + 4 && StdinRead < start + numBytes
  }

  /** The span lies inside the stdin word. */
  predicate Within(start: nat, numBytes: nat)
  {
    StdinRead <= start && start + numBytes <= StdinRead + 4
  }

  /** The boundary test of a raw read against the stdin word. For a
      non-empty span that does not wrap past 2^64 it holds exactly when the
      span overlaps the word without lying inside it. */
  function CrossesStdinWord(startIndex: Uint64, numBytes: Uint64): (crosses: bool)
    ensures 1 <= numBytes && startIndex + numBytes <= TWO_64 ==>
      (crosses <==> Overlaps(startIndex, numBytes) && !Within(startIndex, numBytes))
  {
    var endIndex := EndIndex(startIndex, numBytes);
    (startIndex < StdinRead && endIndex >= StdinRead) ||
    (StdinRead <= startIndex <= StdinReadEnd && endIndex > StdinReadEnd)
  }

  /** How a one-byte read at `index` is served: only the four addresses of
      the stdin word are not plain memory, and only its first byte reads the
      input. */
  function RouteOneByte(index: Uint64): (r: Route)
    ensures r == Plain <==> !(StdinRead <= index <= StdinReadEnd)
    ensures r == StdinByte <==> index == StdinRead
    ensures r != Crossing && r != MakePanics
  {
    if index == StdinRead then StdinByte
    else if StdinRead < index < StdinRead + 4 then StdinTail
    else Plain
  }

  /** How a raw read of `numBytes` bytes at `startIndex` is served; the
      boundary test comes first. A read of the input never asks for more than
      a word, a zero-filled tail read stays inside the word, and a tail read
      whose length Go cannot make is one whose span wraps past 2^64. Go's
      `make` panics once the length passes its allocation limit, which lies
      below `MAX_INT64`; the threshold chosen here gives the same routes,
      because a tail read that passes the boundary test asks for at most 3
      bytes or for at least 2^64 - StdinReadEnd (`TailReadLengths`). */
  function RouteRaw(startIndex: Uint64, numBytes: Uint64): (r: Route)
    ensures r == StdinByte ==> startIndex == StdinRead && numBytes <= 4
    ensures r == StdinTail ==> StdinRead < startIndex && startIndex + numBytes <= StdinRead + 4
    ensures r == MakePanics ==>
      StdinRead < startIndex <= StdinReadEnd && startIndex + numBytes > TWO_64
    ensures StdinRead < startIndex <= StdinReadEnd && startIndex + numBytes > TWO_64 ==>
      r == MakePanics
  {
    if CrossesStdinWord(startIndex, numBytes) then Crossing
    else if startIndex == StdinRead && numBytes <= 4 then StdinByte
    else if StdinRead < startIndex < StdinRead + 4 then
      (if numBytes > MAX_INT64 then MakePanics else StdinTail)
    else Plain
  }

  /** For a non-empty span that does not wrap past 2^64, the route is fixed by
      how the span lies against the stdin word: it is rejected exactly when it
      overlaps the word without lying inside it, it reads the input exactly
      when it lies inside the word from its first byte, it reads zeros exactly
      when it lies inside the word from a later byte, and it goes to the
      backing memory exactly when it misses the word. */
  lemma RouteRawBySpan(startIndex: Uint64, numBytes: Uint64)
    requires 1 <= numBytes && startIndex + numBytes <= TWO_64
    ensures RouteRaw(startIndex, numBytes) == Crossing <==>
      Overlaps(startIndex, numBytes) && !Within(startIndex, numBytes)
    ensures RouteRaw(startIndex, numBytes) == StdinByte <==>
      startIndex == StdinRead && Within(startIndex, numBytes)
    ensures RouteRaw(startIndex, numBytes) == StdinTail <==>
      StdinRead < startIndex && Within(startIndex, numBytes)
    ensures RouteRaw(startIndex, numBytes) == Plain <==> !Overlaps(startIndex, numBytes)
  {
  }

  /** The three straddling reads the Go package's tests reject. */
  lemma StraddlingReadsAreRejected()
    ensures RouteRaw(StdinRead + 1, 4) == Crossing
    ensures RouteRaw(StdinRead, 5) == Crossing
    ensures RouteRaw(StdinRead - 1, 2) == Crossing
  {
  }

  /** An empty read at address 0 has end index 2^64 - 1 after wrap-around and
      so is rejected as crossing the stdin word. */
  lemma EmptyReadAtZeroIsRejected()
    ensures EndIndex(0, 0) == TWO_64 - 1
    ensures RouteRaw(0, 0) == Crossing
  {
  }

  /** An empty read at the stdin word is not rejected: it still takes a byte
      from the input (and returns an empty buffer). */
  lemma EmptyReadAtStdinWordReadsInput()
    ensures RouteRaw(StdinRead, 0) == StdinByte
  {
  }

  /** A read from the word's tail so long that its end wraps back into the
      word is not rejected; Go's `make` of its zero buffer then panics. */
  lemma WrappingReadInTailPanics()
    ensures !CrossesStdinWord(StdinRead + 1, TWO_64 - 1)
    ensures RouteRaw(StdinRead + 1, TWO_64 - 1) == MakePanics
  {
  }

  /** A tail read that passes the boundary test either stays inside the
      word or is so long that no allocation limit admits it. */
  lemma TailReadLengths(startIndex: Uint64, numBytes: Uint64)
    requires StdinRead < startIndex <= StdinReadEnd
    requires !CrossesStdinWord(startIndex, numBytes)
    ensures numBytes <= 3 || numBytes >= TWO_64 - StdinReadEnd
  {
  }

  /** Every empty read: its end index wraps below its start, so it is
      rejected only at address 0, and otherwise routed by its start alone. */
  lemma RouteRawEmpty(startIndex: Uint64)
    ensures RouteRaw(startIndex, 0) == Crossing <==> startIndex == 0
    ensures RouteRaw(startIndex, 0) == StdinByte <==> startIndex == StdinRead
    ensures RouteRaw(startIndex, 0) == StdinTail <==> StdinRead < startIndex <= StdinReadEnd
    ensures RouteRaw(startIndex, 0) == Plain <==>
      (0 < startIndex < StdinRead || startIndex > StdinReadEnd)
  {
  }

  /** Every read whose span wraps past 2^64 escapes the boundary test, even
      one that covers the whole stdin word: it panics when it starts in the
      word's tail and goes to the backing memory otherwise. */
  lemma RouteRawWrapping(startIndex: Uint64, numBytes: Uint64)
    requires startIndex + numBytes > TWO_64
    ensures RouteRaw(startIndex, numBytes) ==
      if StdinRead < startIndex <= StdinReadEnd then MakePanics else Plain
  {
  }

  /** A read from 0x10 to just below 0x8 (wrapping) covers the stdin word,
      yet it is not rejected. */
  lemma WrappingReadOverStdinWordIsDelegated()
    ensures Overlaps(0x10, TWO_64 - 8) && !Within(0x10, TWO_64 - 8)
    ensures RouteRaw(0x10, TWO_64 - 8) == Plain
  {
  }

  /** A read at the stdin word so long that its end wraps below the word is
      not rejected either; the `numBytes <= 4` guard then sends it to the
      backing memory. */
  lemma WrappingReadAtStdinWordIsDelegated()
    ensures !CrossesStdinWord(StdinRead, TWO_64 - 1)
    ensures RouteRaw(StdinRead, TWO_64 - 1) == Plain
  {
  }

  /** A one-byte read is served the same way as a raw read of one byte, which
      is never rejected. */
  lemma OneByteReadAgreesWithRawRead(index: Uint64)
    ensures RouteRaw(index, 1) == RouteOneByte(index)
    ensures RouteRaw(index, 1) != Crossing
  {
  }

  /** The stdout word is plain memory for every read that starts in it. */
  lemma StdoutWordIsPlainMemory(k: nat, numBytes: Uint64)
    requires k < 4 && 1 <= numBytes <= 4 - k
    ensures RouteOneByte(StdoutWrite + k) == Plain
    ensures RouteRaw(StdoutWrite + k, numBytes) == Plain
  {
    RouteRawBySpan(StdoutWrite + k, numBytes);
  }

  /** The buffer of a raw read at the stdin word: the input byte followed by
      zeros (Go's `make` then `copy` of the one-byte read). */
  function StdinWordBytes(value: Byte, numBytes: nat): (r: seq<Byte>)
    ensures |r| == numBytes
    ensures numBytes > 0 ==> r[0] == value
    ensures forall i :: 1 <= i < numBytes ==> r[i] == 0
  {
    seq(numBytes, i => if i == 0 then value else 0)
  }

  /** A full-word read at the stdin word gives [value, 0, 0, 0]. */
  lemma FullWordStdinRead(value: Byte)
    ensures StdinWordBytes(value, 4) == [value, 0, 0, 0]
  {
  }

  /** One result of a one-byte Read on the input stream. */
  datatype StreamRead = StreamRead(value: Byte, err: Option<Error>)

  /** The input stream behind `Stdin`, reduced to what a one-byte Read
      returns: `script[k]` is the result of the k-th Read; once the script is
      used up, a Read leaves the buffer at 0 and reports the end of the
      stream. `cursor` counts the Reads made so far. */
  class InputStream {
    const script: seq<StreamRead>
    var cursor: nat

    constructor (script: seq<StreamRead>)
      ensures this.script == script && cursor == 0
    {
      this.script := script;
      cursor := 0;
    }

    /** The result of the k-th Read. */
    function Next(k: nat): StreamRead
    {
      if k < |script| then script[k] else StreamRead(0, Some(EndOfStream))
    }

    /** `Read` into a one-byte buffer. */
    method Read() returns (value: Byte, err: Option<Error>)
      modifies this
      ensures cursor == old(cursor) + 1
      ensures StreamRead(value, err) == Next(old(cursor))
    {
      var r := Next(cursor);
      value, err := r.value, r.err;
      cursor := cursor + 1;
    }
  }

  /** The decorator: a backing memory and the input stream. */
  class MemoryMappedIO {
    const backingMemory: SliceMemory
    const stdin: InputStream

    constructor (backingMemory: SliceMemory, stdin: InputStream)
      ensures this.backingMemory == backingMemory && this.stdin == stdin
    {
      this.backingMemory := backingMemory;
      this.stdin := stdin;
    }

    /** A one-byte read: the stdin word's first byte is one Read of the
        input, its other bytes are 0, and every other address is the backing
        memory's answer. Only the stdin-word branch touches the input. */
    method ReadOneByte(index: Uint64) returns (value: Byte, err: Option<Error>)
      modifies stdin
      ensures RouteOneByte(index) == StdinByte ==>
        stdin.cursor == old(stdin.cursor) + 1 &&
        StreamRead(value, err) == stdin.Next(old(stdin.cursor))
      ensures RouteOneByte(index) == StdinTail ==>
        value == 0 && err == None && stdin.cursor == old(stdin.cursor)
      ensures RouteOneByte(index) == Plain ==>
        (value, err) == backingMemory.ReadOneByte(index) && stdin.cursor == old(stdin.cursor)
    {
      if index == StdinRead {
        value, err := stdin.Read();
        return;
      }
      if StdinRead < index < StdinRead + 4 {
        return 0, None;
      }
      var r := backingMemory.ReadOneByte(index);
      value, err := r.0, r.1;
    }

    /** A raw read. A span that straddles an edge of the stdin word is an
        access violation and touches neither the input nor the memory; a span
        at the word is one Read of the input padded with zeros; a span in the
        word's tail is zeros, unless its span wraps past 2^64, when Go's
        `make` of the buffer panics; none of these is backed. Everything
        else is the backing memory's answer, backed flag and fault included. */
    method ReadRaw(startIndex: Uint64, numBytes: Uint64) returns (data: seq<Byte>, backed: bool, err: Option<Error>)
      modifies stdin
      ensures RouteRaw(startIndex, numBytes) == Crossing ==>
        data == [] && !backed && err == Some(AccessViolation(startIndex, numBytes, true)) &&
        stdin.cursor == old(stdin.cursor)
      ensures RouteRaw(startIndex, numBytes) == StdinByte ==>
        stdin.cursor == old(stdin.cursor) + 1 &&
        data == StdinWordBytes(stdin.Next(old(stdin.cursor)).value, numBytes) && !backed &&
        err == stdin.Next(old(stdin.cursor)).err
      ensures RouteRaw(startIndex, numBytes) == StdinTail ==>
        data == Zeros(numBytes) && !backed && err == None && stdin.cursor == old(stdin.cursor)
      ensures RouteRaw(startIndex, numBytes) == MakePanics ==>
        data == [] && !backed && err == Some(LengthOutOfRange) && stdin.cursor == old(stdin.cursor)
      ensures RouteRaw(startIndex, numBytes) == Plain ==>
        RawRead(data, backed, err) == backingMemory.ReadRaw(startIndex, numBytes) &&
        stdin.cursor == old(stdin.cursor)
    {
      var endIndex := EndIndex(startIndex, numBytes);
      if (startIndex < StdinRead && endIndex >= StdinRead) ||
         (StdinRead <= startIndex <= StdinReadEnd && endIndex > StdinReadEnd) {
        return [], false, Some(AccessViolation(startIndex, numBytes, true));
      }
      if startIndex == StdinRead && numBytes <= 4 {
        var value, readErr := stdin.Read();
        return StdinWordBytes(value, numBytes), false, readErr;
      }
      if StdinRead < startIndex < StdinRead + 4 {
        if numBytes > MAX_INT64 {
          return [], false, Some(LengthOutOfRange);
        }
        return Zeros(numBytes), false, None;
      }
      var r := backingMemory.ReadRaw(startIndex, numBytes);
      data, backed, err := r.data, r.backed, r.err;
    }

    /** The size of the backing memory. */
    function Size(): (n: nat)
      ensures n == backingMemory.Size()
    {
      backingMemory.Size()
    }

    /** A one-byte write goes to the backing memory at every address, the
        stdin and stdout words included; the input is not touched. */
    method WriteOneByte(val: Byte, index: Uint64) returns (err: Option<Error>)
      modifies backingMemory.bytes
      ensures err == Fault(index, 1, false, backingMemory.Size())
      ensures backingMemory.bytes[..] ==
        if err == None then old(backingMemory.bytes[..])[index := val] else old(backingMemory.bytes[..])
      ensures unchanged(stdin)
    {
      err := backingMemory.WriteOneByte(val, index);
    }

    /** A raw write goes to the backing memory at every address; the input is
        not touched. */
    method WriteRaw(data: seq<Byte>, startIndex: Uint64) returns (err: Option<Error>)
      modifies backingMemory.bytes
      ensures err == Fault(startIndex, |data|, false, backingMemory.Size())
      ensures backingMemory.bytes[..] ==
        if err == None then Overwrite(old(backingMemory.bytes[..]), data, startIndex)
        else old(backingMemory.bytes[..])
      ensures unchanged(stdin)
    {
      err := backingMemory.WriteRaw(data, startIndex);
    }
  }

  /** What a caller can conclude from the contracts alone: a full-word read
      at the stdin word, a read of its tail and a straddling read. */
  method StdinWordScenario()
  {
    var backing := new SliceMemory(16);
    var input := new InputStream([StreamRead(10, None)]);
    var mem := new MemoryMappedIO(backing, input);
    StraddlingReadsAreRejected();

    var data, backed, err := mem.ReadRaw(StdinRead, 4);
    FullWordStdinRead(10);
    assert data == [10, 0, 0, 0] && !backed && err == None && input.cursor == 1;

    data, backed, err := mem.ReadRaw(StdinRead + 1, 3);
    assert data == [0, 0, 0] && err == None && input.cursor == 1;

    data, backed, err := mem.ReadRaw(StdinRead, 5);
    assert err == Some(AccessViolation(StdinRead, 5, true)) && input.cursor == 1;

    var value, err1 := mem.ReadOneByte(StdinRead);
    assert value == 0 && err1 == Some(EndOfStream) && input.cursor == 2;
  }
}
