/** Session set-up for the CS241 MIPS emulator: a zeroed processor (32
    general registers with register 0 the hard-wired zero register, Hi, Low,
    Pc, big-endian byte order, a zeroed plain memory), then one of the two
    calling conventions: two integers in registers 1 and 2, or an array of
    integers stored right after the program with its address in register 1
    and its length in register 2. Both then load the program at address 0
    and set register 31 to 0xFFFFFFFF and register 30 to the memory size. */
module Emulation {
  import opened Machine
  import opened Memory

  /** A 32-bit integer register, or the zero register, which always reads 0. */
  datatype Register = ZeroRegister | IntRegister(value: Uint32)
  {
    function ValueAsUint32(): Uint32
    {
      if ZeroRegister? then 0 else value
    }
  }

  /** The return address CS241 programs jump to when they finish. */
  const ReturnAddress: Uint32 := 0xFFFF_FFFF

  /** The array region: each value as a big-endian 32-bit word, in order. */
  function ArrayLayout(values: seq<Int32>): (r: seq<Byte>)
    ensures |r| == 4 * |values|
  {
    if values == [] then []
    else ArrayLayout(values[..|values| - 1]) + EncodeUint32(BigEndian, ToUint32(values[|values| - 1]))
  }

  /** The i-th value sits at offset 4 * i of the array region. */
  lemma {:induction false} ArrayLayoutWord(values: seq<Int32>, i: nat)
    requires i < |values|
    ensures ArrayLayout(values)[4 * i..4 * i + 4] == EncodeUint32(BigEndian, ToUint32(values[i]))
  {
    var init := values[..|values| - 1];
    if i < |values| - 1 {
      ArrayLayoutWord(init, i);
      assert init[i] == values[i];
      assert ArrayLayout(values)[..4 * |init|] == ArrayLayout(init);
    }
  }

  /** Memory after the "two ints" set-up: the program, then zeros. */
  function TwoIntsImage(memorySize: nat, program: seq<Byte>): seq<Byte>
    requires |program| <= memorySize
  {
    program + Zeros(memorySize - |program|)
  }

  /** Memory after the "array" set-up: the program, the array right after
      it, then zeros. */
  function ArrayImage(memorySize: nat, program: seq<Byte>, values: seq<Int32>): seq<Byte>
    requires |program| + 4 * |values| <= memorySize
  {
    program + ArrayLayout(values) + Zeros(memorySize - |program| - 4 * |values|)
  }

  /** Memory while the array is being stored: zeros where the program will
      go, the first `k` values, then zeros. */
  function ArrayPrefixImage(memorySize: nat, location: nat, values: seq<Int32>, k: nat): seq<Byte>
    requires k <= |values| && location + 4 * |values| <= memorySize
  {
    Zeros(location) + ArrayLayout(values[..k]) + Zeros(memorySize - location - 4 * k)
  }

  /** Writing the k-th value as a big-endian word right after the first k
      extends the stored array by that value. */
  lemma StoreNextValue(memorySize: nat, location: nat, values: seq<Int32>, k: nat)
    requires k < |values| && location + 4 * |values| <= memorySize
    ensures location + 4 * k + 4 <= memorySize
    ensures Overwrite(ArrayPrefixImage(memorySize, location, values, k),
                      EncodeUint32(BigEndian, ToUint32(values[k])), location + 4 * k)
         == ArrayPrefixImage(memorySize, location, values, k + 1)
  {
    var done := Zeros(location) + ArrayLayout(values[..k]);
    var word := EncodeUint32(BigEndian, ToUint32(values[k]));
    OverwriteZeros(done, word, memorySize - location - 4 * k);
    assert values[..k + 1][..k] == values[..k];
    assert ArrayLayout(values[..k + 1]) == ArrayLayout(values[..k]) + word;
  }

  /** Loading the program at address 0 over the stored array leaves the
      array intact, because the program ends exactly where the array begins. */
  lemma ProgramEndsWhereArrayBegins(memorySize: nat, program: seq<Byte>, values: seq<Int32>)
    requires |program| + 4 * |values| <= memorySize
    ensures Overwrite(ArrayPrefixImage(memorySize, |program|, values, |values|), program, 0)
         == ArrayImage(memorySize, program, values)
  {
    var stored := ArrayPrefixImage(memorySize, |program|, values, |values|);
    assert values[..|values|] == values;
    OverwriteFront(stored, program);
    assert stored[|program|..] == ArrayLayout(values) + Zeros(memorySize - |program| - 4 * |values|);
  }

  /** The "array" image holds the program at offset 0, and reading back the
      big-endian word at `len(program) + 4 * i` as an int32 gives `values[i]`;
      the bytes after the array are zero. */
  lemma {:induction false} ArrayImageReadsBack(memorySize: nat, program: seq<Byte>, values: seq<Int32>, i: nat)
    requires |program| + 4 * |values| <= memorySize
    requires i < |values|
    ensures |ArrayImage(memorySize, program, values)| == memorySize
    ensures ArrayImage(memorySize, program, values)[..|program|] == program
    ensures ToInt32(DecodeUint32(BigEndian,
      ArrayImage(memorySize, program, values)[|program| + 4 * i..|program| + 4 * i + 4])) == values[i]
    ensures forall k :: |program| + 4 * |values| <= k < memorySize ==>
      ArrayImage(memorySize, program, values)[k] == 0
  {
    var image := ArrayImage(memorySize, program, values);
    var layout := ArrayLayout(values);
    ArrayLayoutWord(values, i);
    assert image[|program| + 4 * i..|program| + 4 * i + 4] == layout[4 * i..4 * i + 4];
  }

  /** The general registers after either CS241 set-up: register 0 is the
      zero register, registers 1 and 2 hold the arguments, 3 to 29 are 0,
      30 holds the memory size and 31 the return address. */
  ghost predicate Cs241Registers(regs: seq<Register>, r1: Uint32, r2: Uint32, memorySize: Uint32)
  {
    |regs| == 32 &&
    regs[0] == ZeroRegister &&
    regs[1] == IntRegister(r1) && regs[2] == IntRegister(r2) &&
    (forall i :: 3 <= i < 30 ==> regs[i] == IntRegister(0)) &&
    regs[30] == IntRegister(memorySize) && regs[31] == IntRegister(ReturnAddress)
  }

  /** Only register 0 is a zero register after either set-up, and the
      registers read as CS241 expects. */
  lemma Cs241RegisterValues(regs: seq<Register>, r1: Uint32, r2: Uint32, memorySize: Uint32)
    requires Cs241Registers(regs, r1, r2, memorySize)
    ensures forall i :: 1 <= i < 32 ==> regs[i] != ZeroRegister
    ensures regs[0].ValueAsUint32() == 0
    ensures regs[1].ValueAsUint32() == r1 && regs[2].ValueAsUint32() == r2
    ensures forall i :: 3 <= i < 30 ==> regs[i].ValueAsUint32() == 0
    ensures regs[30].ValueAsUint32() == memorySize && regs[31].ValueAsUint32() == 0xFFFF_FFFF
  {
  }

  /** An emulator: the processor state that the set-up writes. */
  class Emulator {
    var byteOrder: ByteOrder
    var hi: Register
    var low: Register
    var pc: Register
    const registers: array<Register>
    const memory: SliceMemory

    /** Everything but the memory contents is as NewZeroed leaves it. */
    ghost predicate ZeroedProcessor(memorySize: Uint32)
      reads this, registers
    {
      byteOrder == BigEndian &&
      hi == IntRegister(0) && low == IntRegister(0) && pc == IntRegister(0) &&
      registers.Length == 32 &&
      registers[0] == ZeroRegister &&
      (forall i :: 1 <= i < 32 ==> registers[i] == IntRegister(0)) &&
      memory.bytes.Length == memorySize
    }

    /** All registers and a memory of `memorySize` bytes set to zero;
        register 0 is the zero register, the others (Hi, Low and Pc
        included) are ordinary registers; big-endian byte order. */
    constructor NewZeroed(memorySize: Uint32)
      ensures ZeroedProcessor(memorySize)
      ensures memory.bytes[..] == Zeros(memorySize)
      ensures fresh(registers) && fresh(memory) && fresh(memory.bytes)
    {
      hi := IntRegister(0);
      low := IntRegister(0);
      pc := IntRegister(0);
      var mem := new SliceMemory(memorySize);
      memory := mem;
      byteOrder := BigEndian;
      var regs := new Register[32];
      regs[0] := ZeroRegister;
      for i := 1 to 32
        modifies regs
        invariant regs[0] == ZeroRegister
        invariant forall k :: 1 <= k < i ==> regs[k] == IntRegister(0)
      {
        regs[i] := IntRegister(0);
      }
      registers := regs;
    }

    /** The "two ints" session: `reg1` and `reg2`, reinterpreted as
        unsigned, in registers 1 and 2; program at 0; r30 and r31 set. */
    static method NewTwoInts(memorySize: Uint32, program: seq<Byte>, reg1: Int32, reg2: Int32)
      returns (e: Emulator)
      requires |program| <= memorySize
      ensures fresh(e) && fresh(e.registers) && fresh(e.memory) && fresh(e.memory.bytes)
      ensures e.byteOrder == BigEndian && e.hi == e.low == e.pc == IntRegister(0)
      ensures Cs241Registers(e.registers[..], ToUint32(reg1), ToUint32(reg2), memorySize)
      ensures forall i :: 1 <= i < 32 ==> e.registers[i] != ZeroRegister
      ensures ToInt32(e.registers[1].ValueAsUint32()) == reg1
      ensures ToInt32(e.registers[2].ValueAsUint32()) == reg2
      ensures e.registers[30].ValueAsUint32() == memorySize
      ensures e.registers[31].ValueAsUint32() == 0xFFFF_FFFF
      ensures e.memory.bytes[..] == TwoIntsImage(memorySize, program)
    {
      e := new Emulator.NewZeroed(memorySize);
      e.registers[1] := IntRegister(ToUint32(reg1));
      e.registers[2] := IntRegister(ToUint32(reg2));
      e.SetupForCs241(program, memorySize);
      OverwriteFront(Zeros(memorySize), program);
      assert Zeros(memorySize)[|program|..] == Zeros(memorySize - |program|);
      Cs241RegisterValues(e.registers[..], ToUint32(reg1), ToUint32(reg2), memorySize);
    }

    /** The "array" session: each value stored as a big-endian word from
        address len(program) on, register 1 = that address, register 2 = the
        number of values; program at 0; r30 and r31 set. */
    static method NewArrayInts(memorySize: Uint32, program: seq<Byte>, values: seq<Int32>)
      returns (e: Emulator)
      requires |program| + 4 * |values| <= memorySize
      ensures fresh(e) && fresh(e.registers) && fresh(e.memory) && fresh(e.memory.bytes)
      ensures e.byteOrder == BigEndian && e.hi == e.low == e.pc == IntRegister(0)
      ensures Cs241Registers(e.registers[..], |program|, |values|, memorySize)
      ensures forall i :: 1 <= i < 32 ==> e.registers[i] != ZeroRegister
      ensures e.registers[1].ValueAsUint32() == |program|
      ensures e.registers[2].ValueAsUint32() == |values|
      ensures e.registers[30].ValueAsUint32() == memorySize
      ensures e.registers[31].ValueAsUint32() == 0xFFFF_FFFF
      ensures e.memory.bytes[..] == ArrayImage(memorySize, program, values)
    {
      e := new Emulator.NewZeroed(memorySize);
      var location := |program|;
      var onLocation := location;
      for k := 0 to |values|
        modifies e.memory.bytes
        invariant onLocation == location + 4 * k
        invariant e.memory.bytes[..] == ArrayPrefixImage(memorySize, location, values, k)
      {
        var _ := WriteUint32(e.memory, e.byteOrder, ToUint32(values[k]), onLocation);
        StoreNextValue(memorySize, location, values, k);
        onLocation := onLocation + 4;
      }
      e.registers[1] := IntRegister(location);
      e.registers[2] := IntRegister(|values|);
      e.SetupForCs241(program, memorySize);
      ProgramEndsWhereArrayBegins(memorySize, program, values);
      Cs241RegisterValues(e.registers[..], |program|, |values|, memorySize);
    }

    /** Load the program at address 0, set register 31 to the return address
        and register 30 to the memory size; nothing else changes. */
    method SetupForCs241(program: seq<Byte>, memorySize: Uint32)
      requires registers.Length == 32 && |program| <= memory.bytes.Length
      modifies registers, memory.bytes
      ensures registers[..] == old(registers[..])[31 := IntRegister(ReturnAddress)][30 := IntRegister(memorySize)]
      ensures memory.bytes[..] == Overwrite(old(memory.bytes[..]), program, 0)
    {
      var _ := memory.WriteRaw(program, 0);
      registers[31] := IntRegister(ReturnAddress);
      registers[30] := IntRegister(memorySize);
    }
  }
}
