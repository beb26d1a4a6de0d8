/**
 * The part of the full Intcode machine that the day 9 and the day 23
 * interpreters share word for word: a sparse, self-extending memory, the
 * instruction pointer `idx` and the `relative_offset`, the resolution of
 * read and write operands in position (0), immediate (1) and relative (2)
 * mode, and the opcode handlers that touch nothing but these three.
 *
 * Every handler is entered with `idx` on its first operand: the decode
 * step has already moved past the instruction word.
 */
module IntcodeCore {
  import opened IntcodeCommon

  datatype Core = Core(memory: Memory, idx: nat, relativeOffset: int)

  /** Two memories that every read sees alike. */
  ghost predicate SameView(m: Memory, m': Memory) {
    forall a :: Get(m', a) == Get(m, a)
  }

  /** The address operand `k` (counted from `idx`) reads from under `mode`. */
  function OperandAddress(c: Core, k: nat, mode: Option<int>): nat {
    match mode
    case Some(1) => c.idx + k
    case Some(2) => AsUsize(Get(c.memory, c.idx + k) + c.relativeOffset)
    case _ => AsUsize(Get(c.memory, c.idx + k))
  }

  /** The value operand `k` stands for under `mode`. */
  function Operand(c: Core, k: nat, mode: Option<int>): int {
    Get(c.memory, OperandAddress(c, k, mode))
  }

  /** The address operand `k` designates as a write target: immediate mode is read as position mode. */
  function TargetAddress(c: Core, k: nat, mode: Option<int>): nat {
    if mode == Some(2) then AsUsize(Get(c.memory, c.idx + k) + c.relativeOffset)
    else AsUsize(Get(c.memory, c.idx + k))
  }

  /** `private_check_memory`: read a cell, materialising it with 0 if it was never touched. */
  function CheckMemory(m: Memory, a: nat): (r: (Memory, int))
    ensures r.1 == Get(m, a) && a in r.0
    ensures a in m ==> r.0 == m
  {
    if a !in m then (m[a := 0], 0) else (m, m[a])
  }

  /** Checking a cell adds exactly that key, with value 0 when it was absent. */
  lemma CheckMemoryFootprint(m: Memory, a: nat)
    ensures CheckMemory(m, a).0.Keys == m.Keys + {a}
    ensures ZeroExtends(m, CheckMemory(m, a).0)
  {
  }

  /** `private_read_parameter`: consume one operand cell and resolve it. */
  function ReadParameter(c: Core, mode: Option<int>): (r: (Core, int))
    ensures r.0.idx == c.idx + 1 && r.0.relativeOffset == c.relativeOffset
    ensures r.1 == Operand(c, 0, mode)
  {
    var located :=
      match mode
      case Some(1) => (c.memory, c.idx)
      case Some(2) =>
        var read := CheckMemory(c.memory, c.idx);
        (read.0, AsUsize(read.1 + c.relativeOffset))
      case _ =>
        var read := CheckMemory(c.memory, c.idx);
        (read.0, AsUsize(read.1));
    var fetched := CheckMemory(located.0, located.1);
    (Core(fetched.0, c.idx + 1, c.relativeOffset), fetched.1)
  }

  /**
   * A read adds exactly the operand cell and the cell it resolves to, both
   * zero-filled if they were absent, so no value a read can see changes.
   */
  lemma ReadParameterFootprint(c: Core, mode: Option<int>)
    ensures ReadParameter(c, mode).0.memory.Keys == c.memory.Keys + {c.idx, OperandAddress(c, 0, mode)}
    ensures ZeroExtends(c.memory, ReadParameter(c, mode).0.memory)
    ensures SameView(c.memory, ReadParameter(c, mode).0.memory)
  {
    var first := CheckMemory(c.memory, c.idx);
    CheckMemoryFootprint(c.memory, c.idx);
    if mode != Some(1) {
      CheckMemoryFootprint(first.0, OperandAddress(c, 0, mode));
    } else {
      CheckMemoryFootprint(c.memory, c.idx);
    }
  }

  /**
   * `private_write_parameter`: consume one operand cell as a target address
   * (relative in mode 2, position in every other mode) and store `value` there.
   */
  function WriteParameter(c: Core, mode: Option<int>, value: int): (r: Core)
    ensures r.idx == c.idx + 1 && r.relativeOffset == c.relativeOffset
    ensures TargetAddress(c, 0, mode) in r.memory && r.memory[TargetAddress(c, 0, mode)] == value
  {
    var read := CheckMemory(c.memory, c.idx);
    var target := if mode == Some(2) then read.1 + c.relativeOffset else read.1;
    Core(read.0[AsUsize(target) := value], c.idx + 1, c.relativeOffset)
  }

  /** A write adds the operand cell and the target, and no other cell a read can see changes. */
  lemma WriteParameterFootprint(c: Core, mode: Option<int>, value: int)
    ensures WriteParameter(c, mode, value).memory.Keys == c.memory.Keys + {c.idx, TargetAddress(c, 0, mode)}
    ensures forall a :: a != TargetAddress(c, 0, mode) ==> Get(WriteParameter(c, mode, value).memory, a) == Get(c.memory, a)
  {
    CheckMemoryFootprint(c.memory, c.idx);
  }

  /**
   * `private_get_index`: set `idx` to a jump target resolved by mode. It
   * reads memory by plain indexing, so an absent cell is a fault.
   */
  function GetIndex(c: Core, mode: Option<int>): (r: Result<Core>)
    ensures r.Success? <==> c.idx in c.memory && (mode != Some(1) ==> TargetAddress(c, 0, mode) in c.memory)
    ensures r.Success? ==> r.value == c.(idx := AsUsize(Operand(c, 0, mode)))
    ensures r.Failure? ==> r.fault.MissingKey?
  {
    if c.idx !in c.memory then Failure(MissingKey(c.idx))
    else
      match mode
      case Some(1) => Success(c.(idx := AsUsize(c.memory[c.idx])))
      case Some(2) =>
        var position := AsUsize(c.memory[c.idx] + c.relativeOffset);
        if position !in c.memory then Failure(MissingKey(position))
        else Success(c.(idx := AsUsize(c.memory[position])))
      case _ =>
        var position := AsUsize(c.memory[c.idx]);
        if position !in c.memory then Failure(MissingKey(position))
        else Success(c.(idx := AsUsize(c.memory[position])))
  }

  /**
   * What opcodes 1, 2, 7 and 8 do, seen from the first operand: the two
   * operands are resolved, `value` is stored at the target of the third
   * operand, `idx` ends past it, and nothing else any read could see changes.
   */
  ghost predicate StoresResult(c: Core, r: Core, m1: Option<int>, m2: Option<int>, m3: Option<int>, value: int) {
    && r.idx == c.idx + 3
    && r.relativeOffset == c.relativeOffset
    && r.memory.Keys == c.memory.Keys + {c.idx, OperandAddress(c, 0, m1), c.idx + 1,
                                         OperandAddress(c, 1, m2), c.idx + 2, TargetAddress(c, 2, m3)}
    && Get(r.memory, TargetAddress(c, 2, m3)) == value
    && (forall a :: a != TargetAddress(c, 2, m3) ==> Get(r.memory, a) == Get(c.memory, a))
  }

  /** The common shape of `add`, `multiply`, `less_than` and `equals`: two reads, then a write. */
  function BinaryOperation(c: Core, m1: Option<int>, m2: Option<int>, m3: Option<int>, op: nat): Core
    requires op in {1, 2, 7, 8}
  {
    var first := ReadParameter(c, m1);
    var second := ReadParameter(first.0, m2);
    WriteParameter(second.0, m3, Combine(op, first.1, second.1))
  }

  function Add(c: Core, m1: Option<int>, m2: Option<int>, m3: Option<int>): Core {
    BinaryOperation(c, m1, m2, m3, 1)
  }

  function Multiply(c: Core, m1: Option<int>, m2: Option<int>, m3: Option<int>): Core {
    BinaryOperation(c, m1, m2, m3, 2)
  }

  function LessThan(c: Core, m1: Option<int>, m2: Option<int>, m3: Option<int>): Core {
    BinaryOperation(c, m1, m2, m3, 7)
  }

  function Equals(c: Core, m1: Option<int>, m2: Option<int>, m3: Option<int>): Core {
    BinaryOperation(c, m1, m2, m3, 8)
  }

  /**
   * `add`, `multiply`, `less_than` and `equals` consume three operand cells
   * and store a+b, a*b, (a<b ? 1 : 0) and (a==b ? 1 : 0) through the third.
   */
  lemma {:induction false} ArithmeticStores(c: Core, m1: Option<int>, m2: Option<int>, m3: Option<int>)
    ensures var a, b := Operand(c, 0, m1), Operand(c, 1, m2);
      && StoresResult(c, Add(c, m1, m2, m3), m1, m2, m3, a + b)
      && StoresResult(c, Multiply(c, m1, m2, m3), m1, m2, m3, a * b)
      && StoresResult(c, LessThan(c, m1, m2, m3), m1, m2, m3, if a < b then 1 else 0)
      && StoresResult(c, Equals(c, m1, m2, m3), m1, m2, m3, if a == b then 1 else 0)
  {
    BinaryOperationStores(c, m1, m2, m3, 1);
    BinaryOperationStores(c, m1, m2, m3, 2);
    BinaryOperationStores(c, m1, m2, m3, 7);
    BinaryOperationStores(c, m1, m2, m3, 8);
  }

  lemma BinaryOperationStores(c: Core, m1: Option<int>, m2: Option<int>, m3: Option<int>, op: nat)
    requires op in {1, 2, 7, 8}
    ensures StoresResult(c, BinaryOperation(c, m1, m2, m3, op), m1, m2, m3, Combine(op, Operand(c, 0, m1), Operand(c, 1, m2)))
  {
    var first := ReadParameter(c, m1);
    ReadParameterFootprint(c, m1);
    ShiftedOperands(c, first.0, 1, 1, m2);
    var value := Combine(op, first.1, ReadParameter(first.0, m2).1);
    StoreAfterTwoReads(c, m1, m2, m3, value);
  }

  /** Two operand reads followed by a write of any value store exactly that value at the third operand's target. */
  lemma StoreAfterTwoReads(c: Core, m1: Option<int>, m2: Option<int>, m3: Option<int>, value: int)
    ensures StoresResult(c, WriteParameter(ReadParameter(ReadParameter(c, m1).0, m2).0, m3, value), m1, m2, m3, value)
  {
    StoreAfterTwoReadsKeys(c, m1, m2, m3, value);
    StoreAfterTwoReadsValues(c, m1, m2, m3, value);
  }

  lemma StoreAfterTwoReadsKeys(c: Core, m1: Option<int>, m2: Option<int>, m3: Option<int>, value: int)
    ensures WriteParameter(ReadParameter(ReadParameter(c, m1).0, m2).0, m3, value).memory.Keys
         == c.memory.Keys + {c.idx, OperandAddress(c, 0, m1), c.idx + 1, OperandAddress(c, 1, m2), c.idx + 2, TargetAddress(c, 2, m3)}
  {
    var second := ReadParameter(ReadParameter(c, m1).0, m2);
    TwoReadsKeys(c, m1, m2);
    WriteParameterFootprint(second.0, m3, value);
    ShiftedOperands(c, second.0, 2, 0, m3);
  }

  lemma TwoReadsKeys(c: Core, m1: Option<int>, m2: Option<int>)
    ensures ReadParameter(ReadParameter(c, m1).0, m2).0.memory.Keys
         == c.memory.Keys + {c.idx, OperandAddress(c, 0, m1), c.idx + 1, OperandAddress(c, 1, m2)}
    ensures SameView(c.memory, ReadParameter(ReadParameter(c, m1).0, m2).0.memory)
  {
    var first := ReadParameter(c, m1);
    ReadParameterFootprint(c, m1);
    ReadParameterFootprint(first.0, m2);
    ShiftedOperands(c, first.0, 1, 1, m2);
    SameViewChains(c.memory, first.0.memory, ReadParameter(first.0, m2).0.memory);
  }

  lemma StoreAfterTwoReadsValues(c: Core, m1: Option<int>, m2: Option<int>, m3: Option<int>, value: int)
    ensures var r := WriteParameter(ReadParameter(ReadParameter(c, m1).0, m2).0, m3, value);
      && r.idx == c.idx + 3
      && r.relativeOffset == c.relativeOffset
      && Get(r.memory, TargetAddress(c, 2, m3)) == value
      && (forall a :: a != TargetAddress(c, 2, m3) ==> Get(r.memory, a) == Get(c.memory, a))
  {
    var first := ReadParameter(c, m1);
    var second := ReadParameter(first.0, m2);
    ReadParameterFootprint(c, m1);
    ReadParameterFootprint(first.0, m2);
    WriteParameterFootprint(second.0, m3, value);
    SameViewChains(c.memory, first.0.memory, second.0.memory);
    ShiftedOperands(c, second.0, 2, 0, m3);
  }

  lemma SameViewChains(m0: Memory, m1: Memory, m2: Memory)
    requires SameView(m0, m1) && SameView(m1, m2)
    ensures SameView(m0, m2)
  {
  }

  /** Operands seen from a later `idx` over a memory with the same view are the same operands. */
  lemma ShiftedOperands(c: Core, c': Core, shift: nat, k: nat, mode: Option<int>)
    requires c'.idx == c.idx + shift && c'.relativeOffset == c.relativeOffset
    requires SameView(c.memory, c'.memory)
    ensures OperandAddress(c', k, mode) == OperandAddress(c, k + shift, mode)
    ensures Operand(c', k, mode) == Operand(c, k + shift, mode)
    ensures TargetAddress(c', k, mode) == TargetAddress(c, k + shift, mode)
  {
  }

  /** The cells a jump's target lookup needs, once its condition operand has been read. */
  ghost predicate JumpReadable(c: Core, m1: Option<int>, m2: Option<int>) {
    var keys := c.memory.Keys + {c.idx, OperandAddress(c, 0, m1)};
    c.idx + 1 in keys && (m2 != Some(1) ==> TargetAddress(c, 1, m2) in keys)
  }

  /**
   * Opcodes 5 and 6: read the condition; when `jumpIfNonZero` agrees with it,
   * go to the resolved target, otherwise skip the target operand.
   */
  function Jump(c: Core, m1: Option<int>, m2: Option<int>, jumpIfNonZero: bool): Result<Core> {
    var condition := ReadParameter(c, m1);
    if (condition.1 != 0) == jumpIfNonZero then GetIndex(condition.0, m2)
    else Success(condition.0.(idx := condition.0.idx + 1))
  }

  function JumpIfTrue(c: Core, m1: Option<int>, m2: Option<int>): Result<Core> {
    Jump(c, m1, m2, true)
  }

  function JumpIfFalse(c: Core, m1: Option<int>, m2: Option<int>): Result<Core> {
    Jump(c, m1, m2, false)
  }

  /**
   * `jump_if_true` and `jump_if_false`: a condition that does not call for
   * the jump skips the target operand; one that does sets `idx` to the
   * target its second operand resolves to, and faults exactly when a cell
   * that lookup indexes is absent. Only the condition's cells are added.
   */
  lemma {:induction false} JumpEffect(c: Core, m1: Option<int>, m2: Option<int>, jumpIfNonZero: bool)
    ensures var r := Jump(c, m1, m2, jumpIfNonZero);
      && ((Operand(c, 0, m1) != 0) != jumpIfNonZero ==> r.Success? && r.value.idx == c.idx + 2)
      && ((Operand(c, 0, m1) != 0) == jumpIfNonZero ==> (r.Success? <==> JumpReadable(c, m1, m2)))
      && ((Operand(c, 0, m1) != 0) == jumpIfNonZero && r.Success? ==> r.value.idx == AsUsize(Operand(c, 1, m2)))
      && (r.Success? ==> r.value.relativeOffset == c.relativeOffset)
      && (r.Success? ==> r.value.memory == ReadParameter(c, m1).0.memory)
    ensures Jump(c, m1, m2, jumpIfNonZero).Success? ==>
      && Jump(c, m1, m2, jumpIfNonZero).value.memory.Keys == c.memory.Keys + {c.idx, OperandAddress(c, 0, m1)}
      && SameView(c.memory, Jump(c, m1, m2, jumpIfNonZero).value.memory)
  {
    var condition := ReadParameter(c, m1);
    ReadParameterFootprint(c, m1);
    ShiftedOperands(c, condition.0, 1, 0, m2);
  }

  /** `add_relative_offset`: the one handler that moves the relative base. */
  function AddRelativeOffset(c: Core, m1: Option<int>): (r: Core)
    ensures r.relativeOffset == c.relativeOffset + Operand(c, 0, m1)
    ensures r.idx == c.idx + 1
    ensures r.memory == ReadParameter(c, m1).0.memory
  {
    var offset := ReadParameter(c, m1);
    offset.0.(relativeOffset := c.relativeOffset + offset.1)
  }
}
