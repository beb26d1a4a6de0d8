/**
 * The day 5 machine, the first with parameter modes. Every handler finds
 * its operands at fixed offsets from the instruction word (`idx + 1`,
 * `idx + 2`, `idx + 3`) and moves `idx` itself once it is done; only the
 * mode digit 1 means immediate; input always comes from the console and
 * output is always printed. Memory has a fixed set of addresses, as on
 * day 7.
 */
module Day05Cpu {
  import opened IntcodeCommon
  import opened IntcodeRun

  /** The machine state; `stdin` holds the console lines, `stdout` the printed values. */
  datatype Machine = Machine(memory: Memory, idx: nat, stdin: seq<int>, stdout: seq<int>)

  /** The state `initialise` builds around a program's memory. */
  function Initial(memory: Memory, stdin: seq<int>): (m: Machine)
    ensures m.memory == memory && m.idx == 0 && m.stdin == stdin && m.stdout == []
  {
    Machine(memory, 0, stdin, [])
  }

  /** The opcode as `execute_instruction` assembles it: tens digit times ten plus units digit. */
  function Opcode(nextCode: nat): nat {
    (nextCode / 10) % 10 * 10 + nextCode % 10
  }

  /** A mode digit: `Some(1)` when the digit selected by `divisor` is 1, `None` for any other digit. */
  function ModeDigit(nextCode: nat, divisor: nat): Option<int>
    requires divisor > 0
  {
    if (nextCode / divisor) % 10 == 1 then Some(1) else None
  }

  /** `add`, `multiply`, `less_than` and `equals`: operands at `idx + 1` and `idx + 2`, target address at `idx + 3`. */
  function Arithmetic(m: Machine, op: nat, m1: Option<int>, m2: Option<int>): Result<Machine>
    requires op in {1, 2, 7, 8}
  {
    var first :- Fetch(m.memory, m.idx + 1, m1);
    var second :- Fetch(m.memory, m.idx + 2, m2);
    StoreResult(m, Combine(op, first, second))
  }

  /** The store that ends `add`, `multiply`, `less_than` and `equals`: at the address held at `idx + 3`. */
  function StoreResult(m: Machine, value: int): Result<Machine> {
    var outputSave :- Cell(m.memory, m.idx + 3);
    var memory :- Store(m.memory, AsUsize(outputSave), value);
    Success(m.(memory := memory, idx := m.idx + 4))
  }

  /** `read`: the target address is read before the console is. */
  function Input(m: Machine): Result<Machine> {
    var saveLocation :- Cell(m.memory, m.idx + 1);
    if m.stdin == [] then Failure(InputExhausted)
    else
      var memory :- Store(m.memory, AsUsize(saveLocation), m.stdin[0]);
      Success(m.(memory := memory, stdin := m.stdin[1..], idx := m.idx + 2))
  }

  /** `write` */
  function Output(m: Machine, m1: Option<int>): Result<Machine> {
    var value :- Fetch(m.memory, m.idx + 1, m1);
    Success(m.(stdout := m.stdout + [value], idx := m.idx + 2))
  }

  /** `jump_if_true` and `jump_if_false` */
  function Jump(m: Machine, m1: Option<int>, m2: Option<int>, jumpIfNonZero: bool): Result<Machine> {
    var first :- Fetch(m.memory, m.idx + 1, m1);
    if (first != 0) == jumpIfNonZero then
      var target :- Fetch(m.memory, m.idx + 2, m2);
      Success(m.(idx := AsUsize(target)))
    else
      Success(m.(idx := m.idx + 3))
  }

  /** Runs the handler of opcode `op` on a machine whose `idx` is on the instruction word. */
  function Perform(m: Machine, op: nat, m1: Option<int>, m2: Option<int>): Result<Machine> {
    match op
    case 1 => Arithmetic(m, 1, m1, m2)
    case 2 => Arithmetic(m, 2, m1, m2)
    case 3 => Input(m)
    case 4 => Output(m, m1)
    case 5 => Jump(m, m1, m2, true)
    case 6 => Jump(m, m1, m2, false)
    case 7 => Arithmetic(m, 7, m1, m2)
    case 8 => Arithmetic(m, 8, m1, m2)
    case 99 => Success(m.(idx := |m.memory|))
    case _ => Failure(InvalidOpcode(op))
  }

  /** `execute_instruction`: decode the word at `idx` and dispatch, leaving `idx` where it is. */
  function Step(m: Machine): Result<Machine> {
    var cell :- Cell(m.memory, m.idx);
    var nextCode := AsUsize(cell);
    Perform(m, Opcode(nextCode), ModeDigit(nextCode, 100), ModeDigit(nextCode, 1000))
  }

  /** The loop condition of `execute_instructions` fails: `idx` has reached `size`. */
  function PastEnd(size: nat): Machine -> bool {
    (m: Machine) => m.idx >= size
  }

  /** `execute_instructions` with `size` taken from the memory it starts on. */
  function Execute(m: Machine, fuel: nat): Outcome<Machine> {
    Run(Step, PastEnd(|m.memory|), m, fuel)
  }

  /** A run from `s` with `remaining` fuel is what is left of the run from `start` with `fuel`. */
  ghost predicate Continues(size: nat, start: Machine, fuel: nat, s: Machine, remaining: nat) {
    Run(Step, PastEnd(size), start, fuel) == Run(Step, PastEnd(size), s, remaining)
  }

  /** The decoding of the word at `idx`. */
  predicate AtOpcode(m: Machine, op: nat) {
    m.idx in m.memory && Opcode(AsUsize(m.memory[m.idx])) == op
  }

  function Mode(m: Machine, k: nat): Option<int>
    requires m.idx in m.memory && 1 <= k <= 2
  {
    ModeDigit(AsUsize(m.memory[m.idx]), if k == 1 then 100 else 1000)
  }

  /** The opcode assembled from the tens and units digits is the word's value modulo 100. */
  lemma {:induction false} OpcodeIsLowDigits(nextCode: nat)
    ensures Opcode(nextCode) == nextCode % 100
  {
    var q := nextCode / 10;
    assert nextCode == q * 10 + nextCode % 10;
    assert q == (q / 10) * 10 + q % 10;
    assert nextCode == (q / 10) * 100 + (q % 10) * 10 + nextCode % 10;
    LowDigits(nextCode, q / 10, (q % 10) * 10 + nextCode % 10);
  }

  lemma LowDigits(n: nat, high: nat, low: nat)
    requires n == high * 100 + low && low < 100
    ensures n % 100 == low
  {
  }

  /**
   * For an instruction word in the range of `i64` and not negative, this
   * machine decodes the same opcode as the later machines, and reads an
   * operand as immediate exactly when they do: when its mode digit is 1.
   */
  lemma DecodingAgrees(cell: int, k: nat)
    requires 0 <= cell < HALF_WORD && 1 <= k <= 2
    ensures Opcode(AsUsize(cell)) == DecodeOpcode(cell)
    ensures (ModeDigit(AsUsize(cell), Pow10(k + 1)) == Some(1)) <==> (DecodeMode(cell, k) == Some(1))
    ensures (DecodeMode(cell, k) == Some(1)) <==> cell / Pow10(k + 1) % 10 == 1
  {
    OpcodeIsLowDigits(AsUsize(cell));
    DecodeDigits(cell, k);
  }

  /** Stepping from a missing `idx` or onto an opcode with no handler is fatal. */
  lemma StepFaults(m: Machine)
    ensures m.idx !in m.memory ==> Step(m) == Failure(MissingKey(m.idx))
    ensures m.idx in m.memory && Opcode(AsUsize(m.memory[m.idx])) !in {1, 2, 3, 4, 5, 6, 7, 8, 99} ==>
      Step(m) == Failure(InvalidOpcode(Opcode(AsUsize(m.memory[m.idx]))))
  {
  }

  /**
   * Opcodes 1, 2, 7 and 8 read their operands at `idx + 1` and `idx + 2`,
   * store a+b, a*b, a<b or a==b at the address held at `idx + 3`, and move
   * `idx` on by four; they succeed exactly when all of those cells exist.
   */
  lemma ArithmeticStep(m: Machine, op: nat)
    requires op in {1, 2, 7, 8} && AtOpcode(m, op)
    ensures Step(m).Success? <==>
      && Fetch(m.memory, m.idx + 1, Mode(m, 1)).Success? && Fetch(m.memory, m.idx + 2, Mode(m, 2)).Success?
      && m.idx + 3 in m.memory && AsUsize(m.memory[m.idx + 3]) in m.memory
    ensures Step(m).Success? ==>
      Step(m).value == m.(idx := m.idx + 4,
                          memory := m.memory[AsUsize(m.memory[m.idx + 3]) :=
                            Combine(op, Fetch(m.memory, m.idx + 1, Mode(m, 1)).value, Fetch(m.memory, m.idx + 2, Mode(m, 2)).value)])
  {
    var m1, m2 := Mode(m, 1), Mode(m, 2);
    assert Step(m) == Perform(m, op, m1, m2);
    assert Perform(m, op, m1, m2) == Arithmetic(m, op, m1, m2) by {
      if op == 1 {} else if op == 2 {} else if op == 7 {} else {}
    }
  }

  /** Input stores the next console line at the address held at `idx + 1` and moves `idx` on by two. */
  lemma InputStep(m: Machine)
    requires AtOpcode(m, 3)
    requires m.idx + 1 in m.memory && AsUsize(m.memory[m.idx + 1]) in m.memory
    ensures Step(m).Success? <==> m.stdin != []
    ensures Step(m).Success? ==>
      Step(m).value == m.(idx := m.idx + 2, stdin := m.stdin[1..],
                          memory := m.memory[AsUsize(m.memory[m.idx + 1]) := m.stdin[0]])
    ensures Step(m).Failure? ==> Step(m).fault == InputExhausted
  {
  }

  /** Output prints the operand at `idx + 1` and moves `idx` on by two. */
  lemma OutputStep(m: Machine)
    requires AtOpcode(m, 4)
    ensures Step(m).Success? <==> Fetch(m.memory, m.idx + 1, Mode(m, 1)).Success?
    ensures Step(m).Success? ==>
      Step(m).value == m.(idx := m.idx + 2, stdout := m.stdout + [Fetch(m.memory, m.idx + 1, Mode(m, 1)).value])
  {
  }

  /** A jump whose condition fails moves `idx` on by three. */
  lemma JumpNotTaken(m: Machine, op: nat)
    requires op in {5, 6} && AtOpcode(m, op)
    requires Fetch(m.memory, m.idx + 1, Mode(m, 1)).Success?
    requires (Fetch(m.memory, m.idx + 1, Mode(m, 1)).value != 0) == (op == 6)
    ensures Step(m) == Success(m.(idx := m.idx + 3))
  {
  }

  /** A jump whose condition holds goes to the operand at `idx + 2`, resolved by its mode. */
  lemma JumpTaken(m: Machine, op: nat)
    requires op in {5, 6} && AtOpcode(m, op)
    requires Fetch(m.memory, m.idx + 1, Mode(m, 1)).Success?
    requires (Fetch(m.memory, m.idx + 1, Mode(m, 1)).value != 0) == (op == 5)
    ensures Step(m).Success? <==> Fetch(m.memory, m.idx + 2, Mode(m, 2)).Success?
    ensures Step(m).Success? ==> Step(m) == Success(m.(idx := AsUsize(Fetch(m.memory, m.idx + 2, Mode(m, 2)).value)))
  {
  }

  /** No instruction adds or removes an address. */
  lemma StepKeepsKeys(m: Machine)
    requires Step(m).Success?
    ensures Step(m).value.memory.Keys == m.memory.Keys
  {
    var nextCode := AsUsize(m.memory[m.idx]);
    var op := Opcode(nextCode);
    var m1, m2 := ModeDigit(nextCode, 100), ModeDigit(nextCode, 1000);
    if op in {1, 2, 7, 8} {
      assert Perform(m, op, m1, m2) == Arithmetic(m, op, m1, m2) by {
        if op == 1 {} else if op == 2 {} else if op == 7 {} else {}
      }
    }
  }

  /** The memory a run ends on has the addresses it started with: its size is constant. */
  lemma {:induction false} RunKeepsKeys(m: Machine, size: nat, fuel: nat)
    requires !Run(Step, PastEnd(size), m, fuel).Crashed?
    ensures Run(Step, PastEnd(size), m, fuel).state.memory.Keys == m.memory.Keys
  {
    forall x | Step(x).Success?
      ensures Step(x).value.memory.Keys == x.memory.Keys
    {
      StepKeepsKeys(x);
    }
    RunPreserves(Step, PastEnd(size), (x: Machine) => x.memory.Keys == m.memory.Keys, m, fuel);
  }

  /** Opcode 99 moves `idx` to the memory's size, so the run that executes it stops right there. */
  lemma HaltEndsRun(m: Machine, fuel: nat)
    requires AtOpcode(m, 99) && m.idx < |m.memory| && fuel > 0
    ensures Step(m) == Success(m.(idx := |m.memory|))
    ensures Execute(m, fuel) == Stopped(m.(idx := |m.memory|))
  {
    RunStep(Step, PastEnd(|m.memory|), m, fuel);
  }

  /** The mutable machine. */
  class Cpu {
    var memory: Memory
    var idx: nat
    var stdin: seq<int>
    var stdout: seq<int>

    function Model(): Machine
      reads this
    {
      Machine(memory, idx, stdin, stdout)
    }

    /** `initialise`: the console, which the reference program reads directly, is passed in as `console`. */
    constructor Initialise(program: Memory, console: seq<int>)
      ensures Model() == Initial(program, console)
    {
      memory := program;
      idx := 0;
      stdin := console;
      stdout := [];
    }

    /** The operand match every handler repeats: cell `at` itself in mode 1, the cell it points to otherwise. */
    method Operand(at: nat, mode: Option<int>) returns (value: int, fault: Option<Fault>)
      ensures Yields(Fetch(memory, at, mode), fault, value)
    {
      if at !in memory {
        return 0, Some(MissingKey(at));
      }
      match mode {
        case Some(1) =>
          value := memory[at];
        case _ =>
          var position := AsUsize(memory[at]);
          if position !in memory {
            return 0, Some(MissingKey(position));
          }
          value := memory[position];
      }
      fault := None;
    }

    /** `*memory.get_mut(&address).unwrap() = value` */
    method StoreAt(address: nat, value: int) returns (fault: Option<Fault>)
      modifies this`memory
      ensures Yields(Store(old(memory), address, value), fault, memory)
    {
      if address !in memory {
        return Some(MissingKey(address));
      }
      memory := memory[address := value];
      fault := None;
    }

    /** The shared body of `add`, `multiply`, `less_than` and `equals`. */
    method BinaryOperation(op: nat, m1: Option<int>, m2: Option<int>) returns (fault: Option<Fault>)
      requires op in {1, 2, 7, 8}
      modifies this`memory, this`idx
      ensures Yields(Arithmetic(old(Model()), op, m1, m2), fault, Model())
    {
      var firstVal, secondVal;
      firstVal, fault := Operand(idx + 1, m1);
      if fault.Some? {
        return;
      }
      secondVal, fault := Operand(idx + 2, m2);
      if fault.Some? {
        return;
      }
      fault := WriteResult(Combine(op, firstVal, secondVal));
    }

    /** The write into memory that ends the handlers of opcodes 1, 2, 7 and 8. */
    method WriteResult(output: int) returns (fault: Option<Fault>)
      modifies this`memory, this`idx
      ensures Yields(StoreResult(old(Model()), output), fault, Model())
    {
      if idx + 3 !in memory {
        return Some(MissingKey(idx + 3));
      }
      var outputSave := AsUsize(memory[idx + 3]);
      fault := StoreAt(outputSave, output);
      if fault.Some? {
        return;
      }
      idx := idx + 4;
    }

    /** `add` */
    method Add(m1: Option<int>, m2: Option<int>) returns (fault: Option<Fault>)
      modifies this`memory, this`idx
      ensures Yields(Arithmetic(old(Model()), 1, m1, m2), fault, Model())
    {
      fault := BinaryOperation(1, m1, m2);
    }

    /** `multiply` */
    method Multiply(m1: Option<int>, m2: Option<int>) returns (fault: Option<Fault>)
      modifies this`memory, this`idx
      ensures Yields(Arithmetic(old(Model()), 2, m1, m2), fault, Model())
    {
      fault := BinaryOperation(2, m1, m2);
    }

    /** `less_than` */
    method LessThan(m1: Option<int>, m2: Option<int>) returns (fault: Option<Fault>)
      modifies this`memory, this`idx
      ensures Yields(Arithmetic(old(Model()), 7, m1, m2), fault, Model())
    {
      fault := BinaryOperation(7, m1, m2);
    }

    /** `equals` */
    method Equals(m1: Option<int>, m2: Option<int>) returns (fault: Option<Fault>)
      modifies this`memory, this`idx
      ensures Yields(Arithmetic(old(Model()), 8, m1, m2), fault, Model())
    {
      fault := BinaryOperation(8, m1, m2);
    }

    /** `read` */
    method Read() returns (fault: Option<Fault>)
      modifies this`memory, this`idx, this`stdin
      ensures Yields(Input(old(Model())), fault, Model())
    {
      if idx + 1 !in memory {
        return Some(MissingKey(idx + 1));
      }
      var saveLocation := AsUsize(memory[idx + 1]);
      if stdin == [] {
        return Some(InputExhausted);
      }
      var input := stdin[0];
      stdin := stdin[1..];
      fault := StoreAt(saveLocation, input);
      if fault.Some? {
        return;
      }
      idx := idx + 2;
    }

    /** `write` */
    method Write(m1: Option<int>) returns (fault: Option<Fault>)
      modifies this`idx, this`stdout
      ensures Yields(Output(old(Model()), m1), fault, Model())
    {
      var value;
      value, fault := Operand(idx + 1, m1);
      if fault.Some? {
        return;
      }
      stdout := stdout + [value];
      idx := idx + 2;
    }

    /** The shared body of `jump_if_true` and `jump_if_false`. */
    method ConditionalJump(m1: Option<int>, m2: Option<int>, jumpIfNonZero: bool) returns (fault: Option<Fault>)
      modifies this`idx
      ensures Yields(Jump(old(Model()), m1, m2, jumpIfNonZero), fault, Model())
    {
      var firstVal;
      firstVal, fault := Operand(idx + 1, m1);
      if fault.Some? {
        return;
      }
      if (firstVal != 0) == jumpIfNonZero {
        var target;
        target, fault := Operand(idx + 2, m2);
        if fault.Some? {
          return;
        }
        idx := AsUsize(target);
      } else {
        idx := idx + 3;
      }
    }

    /** `jump_if_true` */
    method JumpIfTrue(m1: Option<int>, m2: Option<int>) returns (fault: Option<Fault>)
      modifies this`idx
      ensures Yields(Jump(old(Model()), m1, m2, true), fault, Model())
    {
      fault := ConditionalJump(m1, m2, true);
    }

    /** `jump_if_false` */
    method JumpIfFalse(m1: Option<int>, m2: Option<int>) returns (fault: Option<Fault>)
      modifies this`idx
      ensures Yields(Jump(old(Model()), m1, m2, false), fault, Model())
    {
      fault := ConditionalJump(m1, m2, false);
    }

    /** `exit` */
    method Exit()
      modifies this`idx
      ensures Model() == old(Model()).(idx := |memory|)
    {
      idx := |memory|;
    }

    /** The dispatcher: run the handler of opcode `instruction`; an opcode with no handler is fatal. */
    method Dispatch(instruction: nat, modeOne: Option<int>, modeTwo: Option<int>) returns (fault: Option<Fault>)
      modifies this
      ensures Yields(Perform(old(Model()), instruction, modeOne, modeTwo), fault, Model())
    {
      fault := None;
      match instruction {
        case 1 => fault := Add(modeOne, modeTwo);
        case 2 => fault := Multiply(modeOne, modeTwo);
        case 3 => fault := Read();
        case 4 => fault := Write(modeOne);
        case 5 => fault := JumpIfTrue(modeOne, modeTwo);
        case 6 => fault := JumpIfFalse(modeOne, modeTwo);
        case 7 => fault := LessThan(modeOne, modeTwo);
        case 8 => fault := Equals(modeOne, modeTwo);
        case 99 => Exit();
        case _ => fault := Some(InvalidOpcode(instruction));
      }
    }

    /** `execute_instruction` */
    method ExecuteInstruction() returns (fault: Option<Fault>)
      modifies this
      ensures Yields(Step(old(Model())), fault, Model())
    {
      if idx !in memory {
        return Some(MissingKey(idx));
      }
      var nextCode := AsUsize(memory[idx]);
      var paramModeOne: Option<int>;
      var paramModeTwo: Option<int>;
      var val := (nextCode / 100) % 10;
      match val {
        case 1 => paramModeOne := Some(1);
        case _ => paramModeOne := None;
      }
      val := (nextCode / 1000) % 10;
      match val {
        case 1 => paramModeTwo := Some(1);
        case _ => paramModeTwo := None;
      }
      var instruction := ((nextCode / 10) % 10) * 10 + (nextCode % 10);
      fault := Dispatch(instruction, paramModeOne, paramModeTwo);
    }

    /** One instruction of a run that has not reached `size`, as one step of that run. */
    method RunOne(size: nat, ghost start: Machine, ghost fuel: nat, remaining: nat) returns (fault: Option<Fault>, left: nat)
      requires idx < size && remaining > 0 && Continues(size, start, fuel, Model(), remaining)
      modifies this
      ensures fault.Some? ==> Run(Step, PastEnd(size), start, fuel) == Crashed(fault.value)
      ensures fault.None? ==> Continues(size, start, fuel, Model(), left)
      ensures left < remaining
    {
      left := remaining - 1;
      ghost var before := Model();
      fault := ExecuteInstruction();
      RunContinues(Step, PastEnd(size), start, fuel, before, remaining, fault, Model(), left);
    }

    /**
     * `execute_instructions`, bounded by `fuel` instructions: the source's
     * loop runs while `idx` is below the size memory had on entry.
     */
    method ExecuteInstructions(fuel: nat) returns (status: Status)
      modifies this
      ensures match Execute(old(Model()), fuel)
        case Stopped(m) => status == Returned && Model() == m
        case OutOfFuel(m) => status == Unfinished && Model() == m
        case Crashed(f) => status == Panicked(f)
    {
      var size := |memory|;
      ghost var start := Model();
      var remaining := fuel;
      while idx < size
        invariant Continues(size, start, fuel, Model(), remaining)
        decreases remaining
      {
        if remaining == 0 {
          return Unfinished;
        }
        var fault;
        fault, remaining := RunOne(size, start, fuel, remaining);
        if fault.Some? {
          return Panicked(fault.value);
        }
      }
      status := Returned;
    }

    /** `print_initial_value`: an absent cell 0 panics. */
    method PrintInitialValue() returns (fault: Option<Fault>)
      modifies this`stdout
      ensures fault.None? <==> 0 in memory
      ensures fault.None? ==> stdout == old(stdout) + [memory[0]]
      ensures fault.Some? ==> fault == Some(MissingKey(0)) && stdout == old(stdout)
    {
      if 0 !in memory {
        return Some(MissingKey(0));
      }
      stdout := stdout + [memory[0]];
      fault := None;
    }
  }
}
