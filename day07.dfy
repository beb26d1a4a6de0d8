/**
 * The day 7 machine: an earlier, smaller interpreter. There is no
 * relative mode and no pause, memory never grows (reading or writing an
 * address the program did not have panics), halting moves `idx` to the
 * end of memory, and the output slot is a plain value that reading does
 * not clear.
 *
 * As for day 9, `Step` and `Run` give the meaning of one instruction and
 * of the run loop on a value of the state, and the class `Cpu` performs
 * them in place.
 */
module Day07Cpu {
  import opened IntcodeCommon
  import opened IntcodeRun

  /** The machine state; `stdin` and `stdout` stand for the console. */
  datatype Machine = Machine(
    memory: Memory,
    idx: nat,
    out: int,
    inputs: seq<int>,
    stdin: seq<int>,
    stdout: seq<int>,
    dispStdOut: bool)

  /** The state `initialise` builds around a program's memory. */
  function Initial(memory: Memory, stdin: seq<int>): (m: Machine)
    ensures m.memory == memory && m.idx == 0 && m.out == 0
    ensures m.inputs == [] && m.stdin == stdin && m.stdout == [] && m.dispStdOut
  {
    Machine(memory, 0, 0, [], stdin, [], true)
  }

  /**
   * `add`, `multiply`, `less_than` and `equals` on a machine whose `idx`
   * is on the first operand: two operand reads, then a store through the
   * third operand, which is always read as an address.
   */
  function Arithmetic(m: Machine, op: nat, m1: Option<int>, m2: Option<int>): Result<Machine>
    requires op in {1, 2, 7, 8}
  {
    var first :- Fetch(m.memory, m.idx, m1);
    var second :- Fetch(m.memory, m.idx + 1, m2);
    StoreResult(m.(idx := m.idx + 2), Combine(op, first, second))
  }

  /** The store that ends `add`, `multiply`, `less_than` and `equals`: at the address the operand at `idx` holds. */
  function StoreResult(m: Machine, value: int): Result<Machine> {
    var outputSave :- Cell(m.memory, m.idx);
    var memory :- Store(m.memory, AsUsize(outputSave), value);
    Success(m.(memory := memory, idx := m.idx + 1))
  }

  /** `read`: the target address is read before the input is taken. */
  function Input(m: Machine): Result<Machine> {
    var saveLocation :- Cell(m.memory, m.idx);
    var taken :- TakeInput(m.inputs, m.stdin);
    var memory :- Store(m.memory, AsUsize(saveLocation), taken.0);
    Success(m.(memory := memory, idx := m.idx + 1, inputs := taken.1, stdin := taken.2))
  }

  /** `write` */
  function Output(m: Machine, m1: Option<int>): Result<Machine> {
    var value :- Fetch(m.memory, m.idx, m1);
    Success(m.(idx := m.idx + 1, out := value, stdout := if m.dispStdOut then m.stdout + [value] else m.stdout))
  }

  /** `jump_if_true` and `jump_if_false` */
  function Jump(m: Machine, m1: Option<int>, m2: Option<int>, jumpIfNonZero: bool): Result<Machine> {
    var first :- Fetch(m.memory, m.idx, m1);
    if (first != 0) == jumpIfNonZero then
      var target :- Fetch(m.memory, m.idx + 1, m2);
      Success(m.(idx := AsUsize(target)))
    else
      Success(m.(idx := m.idx + 2))
  }

  /** Runs the handler of opcode `op` on a machine whose `idx` already points past the instruction word. */
  function Perform(m: Machine, op: nat, m1: Option<int>, m2: Option<int>): Result<Machine> {
    match op
    case 1 => Arithmetic(m, 1, m1, m2)
    case 2 => Arithmetic(m, 2, m1, m2)
    case 3 => Input(m)
    case 4 => Output(m, m1)
    case 5 => Jump(m, m1, m2, true)
    case 6 => Jump(m, m1, m2, false)
    case 7 => Arithmetic(m, 7, m1, m2)
    case 8 => Arithmetic(m, 8, m1, m2)
    case 99 => Success(m.(idx := |m.memory|))
    case _ => Failure(InvalidOpcode(op))
  }

  /** `execute_instruction`: only two modes are decoded. */
  function Step(m: Machine): Result<Machine> {
    var cell :- Cell(m.memory, m.idx);
    Perform(m.(idx := m.idx + 1), DecodeOpcode(cell), DecodeMode(cell, 1), DecodeMode(cell, 2))
  }

  /** The loop condition of `execute_instructions` fails: `idx` has reached `size`. */
  function PastEnd(size: nat): Machine -> bool {
    (m: Machine) => m.idx >= size
  }

  /** `execute_instructions` with `size` taken from the memory it starts on. */
  function Execute(m: Machine, fuel: nat): Outcome<Machine> {
    Run(Step, PastEnd(|m.memory|), m, fuel)
  }

  /** A run from `s` with `remaining` fuel is what is left of the run from `start` with `fuel`. */
  ghost predicate Continues(size: nat, start: Machine, fuel: nat, s: Machine, remaining: nat) {
    Run(Step, PastEnd(size), start, fuel) == Run(Step, PastEnd(size), s, remaining)
  }

  /** The cell at `idx` decodes as opcode `op`. */
  predicate AtOpcode(m: Machine, op: nat) {
    m.idx in m.memory && DecodeOpcode(m.memory[m.idx]) == op
  }

  function Mode(m: Machine, k: nat): Option<int>
    requires m.idx in m.memory && 1 <= k <= 2
  {
    DecodeMode(m.memory[m.idx], k)
  }

  /** Operand k (0 is the first) of the instruction at `idx`, as a read resolves it. */
  function Argument(m: Machine, k: nat, mode: Option<int>): Result<int> {
    Fetch(m.memory, m.idx + 1 + k, mode)
  }

  /** Stepping from a missing `idx` or onto an opcode with no handler is fatal. */
  lemma StepFaults(m: Machine)
    ensures m.idx !in m.memory ==> Step(m) == Failure(MissingKey(m.idx))
    ensures m.idx in m.memory && DecodeOpcode(m.memory[m.idx]) !in {1, 2, 3, 4, 5, 6, 7, 8, 99} ==>
      Step(m) == Failure(InvalidOpcode(DecodeOpcode(m.memory[m.idx])))
  {
  }

  /**
   * Opcodes 1, 2, 7 and 8 consume four cells and store a+b, a*b, a<b or
   * a==b at the address the third operand holds, whatever its mode digit
   * says. They succeed exactly when both operands resolve and the target
   * is already an address of the memory; nothing else changes.
   */
  lemma ArithmeticStep(m: Machine, op: nat)
    requires op in {1, 2, 7, 8} && AtOpcode(m, op)
    ensures Step(m).Success? <==>
      && Argument(m, 0, Mode(m, 1)).Success? && Argument(m, 1, Mode(m, 2)).Success?
      && m.idx + 3 in m.memory && AsUsize(m.memory[m.idx + 3]) in m.memory
    ensures Step(m).Success? ==>
      var target := AsUsize(m.memory[m.idx + 3]);
      Step(m).value == m.(idx := m.idx + 4,
                          memory := m.memory[target := Combine(op, Argument(m, 0, Mode(m, 1)).value, Argument(m, 1, Mode(m, 2)).value)])
  {
    var e := m.(idx := m.idx + 1);
    var m1, m2 := Mode(m, 1), Mode(m, 2);
    assert Step(m) == Perform(e, op, m1, m2);
    assert Perform(e, op, m1, m2) == Arithmetic(e, op, m1, m2) by {
      if op == 1 {} else if op == 2 {} else if op == 7 {} else {}
    }
    ArithmeticEffect(e, op, m1, m2);
    assert Argument(m, 0, m1) == Fetch(e.memory, e.idx, m1);
    assert Argument(m, 1, m2) == Fetch(e.memory, e.idx + 1, m2);
    if Step(m).Success? {
      var stored := m.memory[AsUsize(m.memory[m.idx + 3]) := Combine(op, Argument(m, 0, m1).value, Argument(m, 1, m2).value)];
      assert e.(idx := e.idx + 3, memory := stored) == m.(idx := m.idx + 4, memory := stored);
    }
  }

  /** `Arithmetic` seen from the first operand: what it needs and what it leaves. */
  lemma ArithmeticEffect(m: Machine, op: nat, m1: Option<int>, m2: Option<int>)
    requires op in {1, 2, 7, 8}
    ensures Arithmetic(m, op, m1, m2).Success? <==>
      && Fetch(m.memory, m.idx, m1).Success? && Fetch(m.memory, m.idx + 1, m2).Success?
      && m.idx + 2 in m.memory && AsUsize(m.memory[m.idx + 2]) in m.memory
    ensures Arithmetic(m, op, m1, m2).Success? ==>
      Arithmetic(m, op, m1, m2).value
        == m.(idx := m.idx + 3,
              memory := m.memory[AsUsize(m.memory[m.idx + 2]) := Combine(op, Fetch(m.memory, m.idx, m1).value, Fetch(m.memory, m.idx + 1, m2).value)])
  {
  }

  /** An input instruction with queued inputs stores the LAST of them and removes it: last in, first out. */
  lemma InputIsLastInFirstOut(m: Machine)
    requires AtOpcode(m, 3) && |m.inputs| > 0
    ensures Step(m).Success? <==> m.idx + 1 in m.memory && AsUsize(m.memory[m.idx + 1]) in m.memory
    ensures Step(m).Success? ==>
      Step(m).value == m.(idx := m.idx + 2, inputs := m.inputs[..|m.inputs| - 1],
                          memory := m.memory[AsUsize(m.memory[m.idx + 1]) := m.inputs[|m.inputs| - 1]])
  {
  }

  /** With no inputs queued, an input instruction takes the next console line, and faults when there is none. */
  lemma InputFromConsole(m: Machine)
    requires AtOpcode(m, 3) && |m.inputs| == 0
    requires m.idx + 1 in m.memory && AsUsize(m.memory[m.idx + 1]) in m.memory
    ensures Step(m).Success? <==> |m.stdin| > 0
    ensures Step(m).Success? ==>
      Step(m).value == m.(idx := m.idx + 2, stdin := m.stdin[1..],
                          memory := m.memory[AsUsize(m.memory[m.idx + 1]) := m.stdin[0]])
    ensures Step(m).Failure? ==> Step(m).fault == InputExhausted
  {
  }

  /** An output instruction overwrites the output value with its operand; memory does not change. */
  lemma OutputOverwrites(m: Machine)
    requires AtOpcode(m, 4)
    ensures Step(m).Success? <==> Argument(m, 0, Mode(m, 1)).Success?
    ensures Step(m).Success? ==>
      var value := Argument(m, 0, Mode(m, 1)).value;
      Step(m).value == m.(idx := m.idx + 2, out := value,
                          stdout := m.stdout + if m.dispStdOut then [value] else [])
  {
  }

  /** A jump whose condition fails skips its target operand: three cells in all. */
  lemma JumpNotTaken(m: Machine, op: nat)
    requires op in {5, 6} && AtOpcode(m, op)
    requires Argument(m, 0, Mode(m, 1)).Success?
    requires (Argument(m, 0, Mode(m, 1)).value != 0) == (op == 6)
    ensures Step(m) == Success(m.(idx := m.idx + 3))
  {
  }

  /**
   * A jump whose condition holds goes to its target operand: the cell
   * itself in mode 1, the cell it points to otherwise.
   */
  lemma JumpTaken(m: Machine, op: nat)
    requires op in {5, 6} && AtOpcode(m, op)
    requires Argument(m, 0, Mode(m, 1)).Success?
    requires (Argument(m, 0, Mode(m, 1)).value != 0) == (op == 5)
    ensures Step(m).Success? <==> Argument(m, 1, Mode(m, 2)).Success?
    ensures Step(m).Success? ==> Step(m) == Success(m.(idx := AsUsize(Argument(m, 1, Mode(m, 2)).value)))
  {
  }

  /** No instruction adds or removes an address. */
  lemma StepKeepsKeys(m: Machine)
    requires Step(m).Success?
    ensures Step(m).value.memory.Keys == m.memory.Keys
  {
    var cell := m.memory[m.idx];
    var e := m.(idx := m.idx + 1);
    var op := DecodeOpcode(cell);
    if op in {1, 2, 7, 8} {
      assert Perform(e, op, DecodeMode(cell, 1), DecodeMode(cell, 2)) == Arithmetic(e, op, DecodeMode(cell, 1), DecodeMode(cell, 2)) by {
        if op == 1 {} else if op == 2 {} else if op == 7 {} else {}
      }
    }
  }

  /**
   * The memory a run ends on has the addresses it started with, so the
   * `size` that `execute_instructions` captures on entry remains the
   * memory's size throughout.
   */
  lemma {:induction false} RunKeepsKeys(m: Machine, size: nat, fuel: nat)
    requires !Run(Step, PastEnd(size), m, fuel).Crashed?
    ensures Run(Step, PastEnd(size), m, fuel).state.memory.Keys == m.memory.Keys
  {
    forall x | Step(x).Success?
      ensures Step(x).value.memory.Keys == x.memory.Keys
    {
      StepKeepsKeys(x);
    }
    RunPreserves(Step, PastEnd(size), (x: Machine) => x.memory.Keys == m.memory.Keys, m, fuel);
  }

  /** Opcode 99 moves `idx` to the memory's size, so the run that executes it stops right there. */
  lemma HaltEndsRun(m: Machine, fuel: nat)
    requires AtOpcode(m, 99) && m.idx < |m.memory| && fuel > 0
    ensures Step(m) == Success(m.(idx := |m.memory|))
    ensures Execute(m, fuel) == Stopped(m.(idx := |m.memory|))
  {
    RunStep(Step, PastEnd(|m.memory|), m, fuel);
  }

  /** The mutable machine. */
  class Cpu {
    var memory: Memory
    var idx: nat
    var out: int
    var inputs: seq<int>
    var stdin: seq<int>
    var stdout: seq<int>
    var dispStdOut: bool

    function Model(): Machine
      reads this
    {
      Machine(memory, idx, out, inputs, stdin, stdout, dispStdOut)
    }

    /** `initialise`: the console, which the reference program reads directly, is passed in as `console`. */
    constructor Initialise(program: Memory, console: seq<int>)
      ensures Model() == Initial(program, console)
    {
      memory := program;
      idx := 0;
      out := 0;
      inputs := [];
      stdin := console;
      stdout := [];
      dispStdOut := true;
    }

    /** `private_read_parameter`: resolve the operand at `idx` and step past it. */
    method ReadParameter(mode: Option<int>) returns (value: int, fault: Option<Fault>)
      modifies this`idx
      ensures Yields(Fetch(memory, old(idx), mode), fault, value)
      ensures fault.None? ==> idx == old(idx) + 1
    {
      if idx !in memory {
        return 0, Some(MissingKey(idx));
      }
      match mode {
        case Some(1) =>
          value := memory[idx];
        case _ =>
          var position := AsUsize(memory[idx]);
          if position !in memory {
            return 0, Some(MissingKey(position));
          }
          value := memory[position];
      }
      idx := idx + 1;
      fault := None;
    }

    /** The store every writing handler ends with: `*memory.get_mut(&address).unwrap() = value`. */
    method StoreAt(address: nat, value: int) returns (fault: Option<Fault>)
      modifies this`memory
      ensures Yields(Store(old(memory), address, value), fault, memory)
    {
      if address !in memory {
        return Some(MissingKey(address));
      }
      memory := memory[address := value];
      fault := None;
    }

    /** The shared body of `add`, `multiply`, `less_than` and `equals`. */
    method BinaryOperation(op: nat, m1: Option<int>, m2: Option<int>) returns (fault: Option<Fault>)
      requires op in {1, 2, 7, 8}
      modifies this`memory, this`idx
      ensures Yields(Arithmetic(old(Model()), op, m1, m2), fault, Model())
    {
      var firstVal, secondVal;
      firstVal, fault := ReadParameter(m1);
      if fault.Some? {
        return;
      }
      secondVal, fault := ReadParameter(m2);
      if fault.Some? {
        return;
      }
      fault := WriteResult(Combine(op, firstVal, secondVal));
    }

    /** The write into memory that ends the handlers of opcodes 1, 2, 7 and 8. */
    method WriteResult(output: int) returns (fault: Option<Fault>)
      modifies this`memory, this`idx
      ensures Yields(StoreResult(old(Model()), output), fault, Model())
    {
      if idx !in memory {
        return Some(MissingKey(idx));
      }
      var outputSave := AsUsize(memory[idx]);
      fault := StoreAt(outputSave, output);
      if fault.Some? {
        return;
      }
      idx := idx + 1;
    }

    /** `add` */
    method Add(m1: Option<int>, m2: Option<int>) returns (fault: Option<Fault>)
      modifies this`memory, this`idx
      ensures Yields(Arithmetic(old(Model()), 1, m1, m2), fault, Model())
    {
      fault := BinaryOperation(1, m1, m2);
    }

    /** `multiply` */
    method Multiply(m1: Option<int>, m2: Option<int>) returns (fault: Option<Fault>)
      modifies this`memory, this`idx
      ensures Yields(Arithmetic(old(Model()), 2, m1, m2), fault, Model())
    {
      fault := BinaryOperation(2, m1, m2);
    }

    /** `less_than` */
    method LessThan(m1: Option<int>, m2: Option<int>) returns (fault: Option<Fault>)
      modifies this`memory, this`idx
      ensures Yields(Arithmetic(old(Model()), 7, m1, m2), fault, Model())
    {
      fault := BinaryOperation(7, m1, m2);
    }

    /** `equals` */
    method Equals(m1: Option<int>, m2: Option<int>) returns (fault: Option<Fault>)
      modifies this`memory, this`idx
      ensures Yields(Arithmetic(old(Model()), 8, m1, m2), fault, Model())
    {
      fault := BinaryOperation(8, m1, m2);
    }

    /** `read` */
    method Read() returns (fault: Option<Fault>)
      modifies this`memory, this`idx, this`inputs, this`stdin
      ensures Yields(Input(old(Model())), fault, Model())
    {
      if idx !in memory {
        return Some(MissingKey(idx));
      }
      var saveLocation := AsUsize(memory[idx]);
      var input: int;
      if |inputs| > 0 {
        input := inputs[|inputs| - 1];
        inputs := inputs[..|inputs| - 1];
      } else if |stdin| > 0 {
        input := stdin[0];
        stdin := stdin[1..];
      } else {
        return Some(InputExhausted);
      }
      fault := StoreAt(saveLocation, input);
      if fault.Some? {
        return;
      }
      idx := idx + 1;
    }

    /** `write` */
    method Write(m1: Option<int>) returns (fault: Option<Fault>)
      modifies this`idx, this`out, this`stdout
      ensures Yields(Output(old(Model()), m1), fault, Model())
    {
      var value;
      value, fault := ReadParameter(m1);
      if fault.Some? {
        return;
      }
      if dispStdOut {
        stdout := stdout + [value];
      }
      out := value;
    }

    /** The shared body of `jump_if_true` and `jump_if_false`. */
    method ConditionalJump(m1: Option<int>, m2: Option<int>, jumpIfNonZero: bool) returns (fault: Option<Fault>)
      modifies this`idx
      ensures Yields(Jump(old(Model()), m1, m2, jumpIfNonZero), fault, Model())
    {
      var firstVal;
      firstVal, fault := ReadParameter(m1);
      if fault.Some? {
        return;
      }
      if (firstVal != 0) == jumpIfNonZero {
        if idx !in memory {
          return Some(MissingKey(idx));
        }
        match m2 {
          case Some(1) =>
            idx := AsUsize(memory[idx]);
          case _ =>
            var secValPos := AsUsize(memory[idx]);
            if secValPos !in memory {
              return Some(MissingKey(secValPos));
            }
            idx := AsUsize(memory[secValPos]);
        }
      } else {
        idx := idx + 1;
      }
    }

    /** `jump_if_true` */
    method JumpIfTrue(m1: Option<int>, m2: Option<int>) returns (fault: Option<Fault>)
      modifies this`idx
      ensures Yields(Jump(old(Model()), m1, m2, true), fault, Model())
    {
      fault := ConditionalJump(m1, m2, true);
    }

    /** `jump_if_false` */
    method JumpIfFalse(m1: Option<int>, m2: Option<int>) returns (fault: Option<Fault>)
      modifies this`idx
      ensures Yields(Jump(old(Model()), m1, m2, false), fault, Model())
    {
      fault := ConditionalJump(m1, m2, false);
    }

    /** `exit` */
    method Exit()
      modifies this`idx
      ensures Model() == old(Model()).(idx := |memory|)
    {
      idx := |memory|;
    }

    /** The dispatcher: run the handler of opcode `instruction`; an opcode with no handler is fatal. */
    method Dispatch(instruction: nat, modeOne: Option<int>, modeTwo: Option<int>) returns (fault: Option<Fault>)
      modifies this
      ensures Yields(Perform(old(Model()), instruction, modeOne, modeTwo), fault, Model())
    {
      fault := None;
      match instruction {
        case 1 => fault := Add(modeOne, modeTwo);
        case 2 => fault := Multiply(modeOne, modeTwo);
        case 3 => fault := Read();
        case 4 => fault := Write(modeOne);
        case 5 => fault := JumpIfTrue(modeOne, modeTwo);
        case 6 => fault := JumpIfFalse(modeOne, modeTwo);
        case 7 => fault := LessThan(modeOne, modeTwo);
        case 8 => fault := Equals(modeOne, modeTwo);
        case 99 => Exit();
        case _ => fault := Some(InvalidOpcode(instruction));
      }
    }

    /** `execute_instruction` */
    method ExecuteInstruction() returns (fault: Option<Fault>)
      modifies this
      ensures Yields(Step(old(Model())), fault, Model())
    {
      if idx !in memory {
        return Some(MissingKey(idx));
      }
      var nextCode := AsUsize(memory[idx]);
      var modeOne := ReadDigit(AsI64(nextCode), 3);
      var modeTwo := ReadDigit(AsI64(nextCode), 4);
      var instruction := nextCode % 100;
      idx := idx + 1;
      fault := Dispatch(instruction, modeOne, modeTwo);
    }

    /** One instruction of a run that has not reached `size`, as one step of that run. */
    method RunOne(size: nat, ghost start: Machine, ghost fuel: nat, remaining: nat) returns (fault: Option<Fault>, left: nat)
      requires idx < size && remaining > 0 && Continues(size, start, fuel, Model(), remaining)
      modifies this
      ensures fault.Some? ==> Run(Step, PastEnd(size), start, fuel) == Crashed(fault.value)
      ensures fault.None? ==> Continues(size, start, fuel, Model(), left)
      ensures left < remaining
    {
      left := remaining - 1;
      ghost var before := Model();
      fault := ExecuteInstruction();
      RunContinues(Step, PastEnd(size), start, fuel, before, remaining, fault, Model(), left);
    }

    /**
     * `execute_instructions`, bounded by `fuel` instructions: the source's
     * loop runs while `idx` is below the size memory had on entry.
     */
    method ExecuteInstructions(fuel: nat) returns (status: Status)
      modifies this
      ensures match Execute(old(Model()), fuel)
        case Stopped(m) => status == Returned && Model() == m
        case OutOfFuel(m) => status == Unfinished && Model() == m
        case Crashed(f) => status == Panicked(f)
    {
      var size := |memory|;
      ghost var start := Model();
      var remaining := fuel;
      while idx < size
        invariant Continues(size, start, fuel, Model(), remaining)
        decreases remaining
      {
        if remaining == 0 {
          return Unfinished;
        }
        var fault;
        fault, remaining := RunOne(size, start, fuel, remaining);
        if fault.Some? {
          return Panicked(fault.value);
        }
      }
      status := Returned;
    }

    /** `print_initial_value`: cell 0 is printed whatever `disp_std_out` says; an absent cell 0 panics. */
    method PrintInitialValue() returns (fault: Option<Fault>)
      modifies this`stdout
      ensures fault.None? <==> 0 in memory
      ensures fault.None? ==> stdout == old(stdout) + [memory[0]]
      ensures fault.Some? ==> fault == Some(MissingKey(0)) && stdout == old(stdout)
    {
      if 0 !in memory {
        return Some(MissingKey(0));
      }
      stdout := stdout + [memory[0]];
      fault := None;
    }

    /** `get_output_value`: the last value written, which stays in place. */
    method GetOutputValue() returns (value: int)
      ensures value == Model().out
    {
      value := out;
    }

    /** `set_inputs` */
    method SetInputs(newInputs: seq<int>)
      modifies this`inputs
      ensures Model() == old(Model()).(inputs := newInputs)
    {
      inputs := newInputs;
    }

    /** `display_std_out` */
    method DisplayStdOut(display: bool)
      modifies this`dispStdOut
      ensures Model() == old(Model()).(dispStdOut := display)
    {
      dispStdOut := display;
    }
  }
}
