/**
 * The full Intcode machine of day 9: the shared core plus the pending
 * output slot, the input queue, the console and the three flags.
 *
 * `Step` and `Run` give the meaning of one instruction and of the run
 * loop on a value of the whole machine state; the class `Cpu` performs
 * them in place, method for method as the interpreter does, and each of
 * its methods is proved to leave the state these functions describe.
 */
module Day09Cpu {
  import opened IntcodeCommon
  import opened IntcodeCore
  import opened IntcodeRun

  /**
   * The machine state. `stdin` holds the lines the console would supply once
   * `inputs` is empty; `stdout` holds the values printed by opcode 4.
   */
  datatype Machine = Machine(
    core: Core,
    out: Option<int>,
    inputs: seq<int>,
    stdin: seq<int>,
    stdout: seq<int>,
    dispStdOut: bool,
    pauseExecution: bool,
    finished: bool)

  /** The state `initialise` builds around a program's memory. */
  function Initial(memory: Memory, stdin: seq<int>): (m: Machine)
    ensures m.core.memory == memory && m.core.idx == 0 && m.core.relativeOffset == 0
    ensures m.out.None? && m.inputs == [] && m.stdin == stdin && m.stdout == []
    ensures m.dispStdOut && !m.pauseExecution && !m.finished
  {
    Machine(Core(memory, 0, 0), None, [], stdin, [], true, false, false)
  }

  /** Runs the handler of opcode `op` on a machine whose `idx` already points past the instruction word. */
  function Perform(m: Machine, op: nat, m1: Option<int>, m2: Option<int>, m3: Option<int>): Result<Machine> {
    match op
    case 1 => Success(m.(core := Add(m.core, m1, m2, m3)))
    case 2 => Success(m.(core := Multiply(m.core, m1, m2, m3)))
    case 3 =>
      var taken :- TakeInput(m.inputs, m.stdin);
      Success(m.(core := WriteParameter(m.core, m1, taken.0), inputs := taken.1, stdin := taken.2))
    case 4 =>
      var read := ReadParameter(m.core, m1);
      Success(m.(core := read.0, out := Some(read.1),
                 stdout := if m.dispStdOut then m.stdout + [read.1] else m.stdout))
    case 5 =>
      var c :- JumpIfTrue(m.core, m1, m2);
      Success(m.(core := c))
    case 6 =>
      var c :- JumpIfFalse(m.core, m1, m2);
      Success(m.(core := c))
    case 7 => Success(m.(core := LessThan(m.core, m1, m2, m3)))
    case 8 => Success(m.(core := Equals(m.core, m1, m2, m3)))
    case 9 => Success(m.(core := AddRelativeOffset(m.core, m1)))
    case 99 => Success(m.(finished := true))
    case _ => Failure(InvalidOpcode(op))
  }

  /** `execute_instruction`: decode the word at `idx`, step past it and dispatch. */
  function Step(m: Machine): Result<Machine> {
    if m.core.idx !in m.core.memory then Failure(MissingKey(m.core.idx))
    else
      var cell := m.core.memory[m.core.idx];
      Perform(m.(core := m.core.(idx := m.core.idx + 1)), DecodeOpcode(cell),
               DecodeMode(cell, 1), DecodeMode(cell, 2), DecodeMode(cell, 3))
  }

  /** The condition under which `execute_instructions` returns. */
  predicate IsStopped(m: Machine) {
    m.finished || (m.pauseExecution && m.out.Some?)
  }

  /** A run from `s` with `remaining` fuel is what is left of the run from `start` with `fuel`. */
  ghost predicate Continues(start: Machine, fuel: nat, s: Machine, remaining: nat) {
    Run(Step, IsStopped, start, fuel) == Run(Step, IsStopped, s, remaining)
  }

  /** The cell at `idx` decodes as opcode `op`. */
  predicate AtOpcode(m: Machine, op: nat) {
    m.core.idx in m.core.memory && DecodeOpcode(m.core.memory[m.core.idx]) == op
  }

  /** The machine as its handlers see it: `idx` on the first operand, modes decoded. */
  function Entered(m: Machine): Machine
    requires m.core.idx in m.core.memory
  {
    m.(core := m.core.(idx := m.core.idx + 1))
  }

  function Mode(m: Machine, k: nat): Option<int>
    requires m.core.idx in m.core.memory && 1 <= k <= 3
  {
    DecodeMode(m.core.memory[m.core.idx], k)
  }

  /** Stepping from a missing `idx` or onto an opcode with no handler is fatal. */
  lemma StepFaults(m: Machine)
    ensures m.core.idx !in m.core.memory ==> Step(m) == Failure(MissingKey(m.core.idx))
    ensures m.core.idx in m.core.memory && DecodeOpcode(m.core.memory[m.core.idx]) !in {1, 2, 3, 4, 5, 6, 7, 8, 9, 99} ==>
      Step(m) == Failure(InvalidOpcode(DecodeOpcode(m.core.memory[m.core.idx])))
  {
  }

  /**
   * Opcodes 1, 2, 7 and 8 never fault: they consume four cells, write
   * a+b, a*b, a<b or a==b through the third operand and change nothing else.
   */
  lemma ArithmeticStep(m: Machine, op: nat)
    requires op in {1, 2, 7, 8} && AtOpcode(m, op)
    ensures Step(m).Success?
    ensures var e := Entered(m).core;
      StoresResult(e, Step(m).value.core, Mode(m, 1), Mode(m, 2), Mode(m, 3),
                   Combine(op, Operand(e, 0, Mode(m, 1)), Operand(e, 1, Mode(m, 2))))
    ensures Step(m).value.core.idx == m.core.idx + 4
    ensures Step(m).value == m.(core := Step(m).value.core)
  {
    var e := Entered(m);
    assert Step(m) == Perform(e, op, Mode(m, 1), Mode(m, 2), Mode(m, 3));
    assert Step(m) == Success(e.(core := BinaryOperation(e.core, Mode(m, 1), Mode(m, 2), Mode(m, 3), op))) by {
      if op == 1 {} else if op == 2 {} else if op == 7 {} else {}
    }
    BinaryOperationStores(e.core, Mode(m, 1), Mode(m, 2), Mode(m, 3), op);
  }

  /** A jump whose condition fails skips both operands: three cells in all. */
  lemma JumpNotTaken(m: Machine, op: nat)
    requires op in {5, 6} && AtOpcode(m, op)
    requires (Operand(Entered(m).core, 0, Mode(m, 1)) != 0) == (op == 6)
    ensures Step(m).Success? && Step(m).value.core.idx == m.core.idx + 3
    ensures Step(m).value == m.(core := Step(m).value.core)
  {
    JumpEffect(Entered(m).core, Mode(m, 1), Mode(m, 2), op == 5);
  }

  /** A jump whose condition holds lands on the target its second operand resolves to. */
  lemma JumpTaken(m: Machine, op: nat)
    requires op in {5, 6} && AtOpcode(m, op)
    requires (Operand(Entered(m).core, 0, Mode(m, 1)) != 0) == (op == 5)
    ensures Step(m).Success? <==> JumpReadable(Entered(m).core, Mode(m, 1), Mode(m, 2))
    ensures Step(m).Success? ==> Step(m).value.core.idx == AsUsize(Operand(Entered(m).core, 1, Mode(m, 2)))
    ensures Step(m).Success? ==> Step(m).value == m.(core := Step(m).value.core)
  {
    JumpEffect(Entered(m).core, Mode(m, 1), Mode(m, 2), op == 5);
  }

  /**
   * An input instruction with queued inputs stores the LAST of them at its
   * target and removes it: the queue is read last in, first out.
   */
  lemma InputIsLastInFirstOut(m: Machine)
    requires AtOpcode(m, 3) && |m.inputs| > 0
    ensures Step(m).Success?
    ensures var target := TargetAddress(Entered(m).core, 0, Mode(m, 1));
      Step(m).value.core.memory[target] == m.inputs[|m.inputs| - 1]
    ensures Step(m).value.inputs == m.inputs[..|m.inputs| - 1]
    ensures Step(m).value.core.idx == m.core.idx + 2
    ensures Step(m).value == m.(core := Step(m).value.core, inputs := m.inputs[..|m.inputs| - 1])
  {
  }

  /** With no inputs left, an input instruction falls back on the console, and faults when that is exhausted too. */
  lemma InputFromConsole(m: Machine)
    requires AtOpcode(m, 3) && |m.inputs| == 0
    ensures Step(m).Success? <==> |m.stdin| > 0
    ensures Step(m).Success? ==>
      Step(m).value.core.memory[TargetAddress(Entered(m).core, 0, Mode(m, 1))] == m.stdin[0]
      && Step(m).value.stdin == m.stdin[1..]
    ensures Step(m).Success? ==> Step(m).value == m.(core := Step(m).value.core, stdin := m.stdin[1..])
    ensures Step(m).Failure? ==> Step(m).fault == InputExhausted
  {
  }

  /** An output instruction fills the pending-output slot with its operand, overwriting what was there. */
  lemma OutputFillsSlot(m: Machine)
    requires AtOpcode(m, 4)
    ensures Step(m).Success?
    ensures Step(m).value.out == Some(Operand(Entered(m).core, 0, Mode(m, 1)))
    ensures Step(m).value.core.idx == m.core.idx + 2
    ensures Step(m).value.stdout == m.stdout + (if m.dispStdOut then [Step(m).value.out.value] else [])
  {
  }

  /** Opcode 9 is the only instruction that moves the relative base. */
  lemma OnlyNineMovesRelativeBase(m: Machine)
    requires Step(m).Success? && !AtOpcode(m, 9)
    ensures Step(m).value.core.relativeOffset == m.core.relativeOffset
  {
  }

  /** Opcode 99 sets `finished`, and no instruction ever clears it. */
  lemma FinishedIsSticky(m: Machine)
    requires Step(m).Success?
    ensures AtOpcode(m, 99) ==> Step(m).value.finished
    ensures m.finished ==> Step(m).value.finished
  {
  }

  /** No instruction changes the `pause_execution` or the `disp_std_out` flag. */
  lemma StepKeepsFlags(m: Machine)
    requires Step(m).Success?
    ensures Step(m).value.pauseExecution == m.pauseExecution
    ensures Step(m).value.dispStdOut == m.dispStdOut
  {
  }

  /**
   * A run of `execute_instructions` never changes the two flags, and a
   * machine that has finished stays finished.
   */
  lemma RunKeepsFlags(m: Machine, fuel: nat)
    requires !Run(Step, IsStopped, m, fuel).Crashed?
    ensures Run(Step, IsStopped, m, fuel).state.pauseExecution == m.pauseExecution
    ensures Run(Step, IsStopped, m, fuel).state.dispStdOut == m.dispStdOut
    ensures m.finished ==> Run(Step, IsStopped, m, fuel).state.finished
  {
    forall x | Step(x).Success?
      ensures Step(x).value.pauseExecution == x.pauseExecution && Step(x).value.dispStdOut == x.dispStdOut
      ensures x.finished ==> Step(x).value.finished
    {
      StepKeepsFlags(x);
      FinishedIsSticky(x);
    }
    var flags := (x: Machine) => x.pauseExecution == m.pauseExecution && x.dispStdOut == m.dispStdOut;
    RunPreserves(Step, IsStopped, flags, m, fuel);
    if m.finished {
      RunPreserves(Step, IsStopped, (x: Machine) => x.finished, m, fuel);
    }
  }

  /** The mutable machine. */
  class Cpu {
    var memory: Memory
    var idx: nat
    var out: Option<int>
    var inputs: seq<int>
    var stdin: seq<int>
    var stdout: seq<int>
    var dispStdOut: bool
    var pauseExecution: bool
    var finished: bool
    var relativeOffset: int

    function Model(): Machine
      reads this
    {
      Machine(Core(memory, idx, relativeOffset), out, inputs, stdin, stdout, dispStdOut, pauseExecution, finished)
    }

    /** `initialise`: the console, which the reference program reads directly, is passed in as `console`. */
    constructor Initialise(program: Memory, console: seq<int>)
      ensures Model() == Initial(program, console)
    {
      memory := program;
      idx := 0;
      out := None;
      inputs := [];
      stdin := console;
      stdout := [];
      dispStdOut := true;
      pauseExecution := false;
      finished := false;
      relativeOffset := 0;
    }

    /** `private_check_memory` */
    method CheckMemory(address: nat) returns (value: int)
      modifies this
      ensures var r := IntcodeCore.CheckMemory(old(memory), address);
        value == r.1 && Model() == old(Model()).(core := old(Model()).core.(memory := r.0))
    {
      if address !in memory {
        value := 0;
        memory := memory[address := 0];
      } else {
        value := memory[address];
      }
    }

    /** `private_read_parameter` */
    method ReadParameter(mode: Option<int>) returns (value: int)
      modifies this
      ensures var r := IntcodeCore.ReadParameter(old(Model()).core, mode);
        value == r.1 && Model() == old(Model()).(core := r.0)
    {
      var address: nat;
      match mode {
        case Some(1) =>
          address := idx;
        case Some(2) =>
          var cell := CheckMemory(idx);
          address := AsUsize(cell + relativeOffset);
        case _ =>
          var cell := CheckMemory(idx);
          address := AsUsize(cell);
      }
      idx := idx + 1;
      value := CheckMemory(address);
    }

    /** `private_write_parameter` */
    method WriteParameter(mode: Option<int>, output: int)
      modifies this
      ensures Model() == old(Model()).(core := IntcodeCore.WriteParameter(old(Model()).core, mode, output))
    {
      var outputSave: int;
      match mode {
        case Some(2) =>
          var cell := CheckMemory(idx);
          outputSave := cell + relativeOffset;
        case _ =>
          outputSave := CheckMemory(idx);
      }
      memory := memory[AsUsize(outputSave) := output];
      idx := idx + 1;
    }

    /** `private_get_index`: `fault` is the panic of indexing an absent cell. */
    method GetIndex(mode: Option<int>) returns (fault: Option<Fault>)
      modifies this
      ensures var r := IntcodeCore.GetIndex(old(Model()).core, mode);
        && (fault.None? <==> r.Success?)
        && (r.Success? ==> Model() == old(Model()).(core := r.value))
        && (r.Failure? ==> fault == Some(r.fault))
    {
      if idx !in memory {
        return Some(MissingKey(idx));
      }
      var position: nat;
      match mode {
        case Some(1) =>
          idx := AsUsize(memory[idx]);
          return None;
        case Some(2) =>
          position := AsUsize(memory[idx] + relativeOffset);
        case _ =>
          position := AsUsize(memory[idx]);
      }
      if position !in memory {
        return Some(MissingKey(position));
      }
      idx := AsUsize(memory[position]);
      fault := None;
    }

    /** `add` */
    method Add(m1: Option<int>, m2: Option<int>, m3: Option<int>)
      modifies this
      ensures Model() == old(Model()).(core := IntcodeCore.Add(old(Model()).core, m1, m2, m3))
    {
      var firstVal := ReadParameter(m1);
      var secondVal := ReadParameter(m2);
      WriteParameter(m3, firstVal + secondVal);
    }

    /** `multiply` */
    method Multiply(m1: Option<int>, m2: Option<int>, m3: Option<int>)
      modifies this
      ensures Model() == old(Model()).(core := IntcodeCore.Multiply(old(Model()).core, m1, m2, m3))
    {
      var firstVal := ReadParameter(m1);
      var secondVal := ReadParameter(m2);
      WriteParameter(m3, firstVal * secondVal);
    }

    /** `read` */
    method Read(m1: Option<int>) returns (fault: Option<Fault>)
      modifies this
      ensures fault.None? <==> Perform(old(Model()), 3, m1, None, None).Success?
      ensures fault.None? ==> Model() == Perform(old(Model()), 3, m1, None, None).value
      ensures fault.Some? ==> Perform(old(Model()), 3, m1, None, None) == Failure(fault.value)
    {
      var input: int;
      if |inputs| > 0 {
        input := inputs[|inputs| - 1];
        inputs := inputs[..|inputs| - 1];
      } else if |stdin| > 0 {
        input := stdin[0];
        stdin := stdin[1..];
      } else {
        return Some(InputExhausted);
      }
      WriteParameter(m1, input);
      fault := None;
    }

    /** `write` */
    method Write(m1: Option<int>)
      modifies this
      ensures Model() == Perform(old(Model()), 4, m1, None, None).value
    {
      var value := ReadParameter(m1);
      if dispStdOut {
        stdout := stdout + [value];
      }
      out := Some(value);
    }

    /** `jump_if_true` */
    method JumpIfTrue(m1: Option<int>, m2: Option<int>) returns (fault: Option<Fault>)
      modifies this
      ensures var r := IntcodeCore.JumpIfTrue(old(Model()).core, m1, m2);
        && (fault.None? <==> r.Success?)
        && (r.Success? ==> Model() == old(Model()).(core := r.value))
        && (r.Failure? ==> fault == Some(r.fault))
    {
      var firstVal := ReadParameter(m1);
      if firstVal != 0 {
        fault := GetIndex(m2);
      } else {
        idx := idx + 1;
        fault := None;
      }
    }

    /** `jump_if_false` */
    method JumpIfFalse(m1: Option<int>, m2: Option<int>) returns (fault: Option<Fault>)
      modifies this
      ensures var r := IntcodeCore.JumpIfFalse(old(Model()).core, m1, m2);
        && (fault.None? <==> r.Success?)
        && (r.Success? ==> Model() == old(Model()).(core := r.value))
        && (r.Failure? ==> fault == Some(r.fault))
    {
      var firstVal := ReadParameter(m1);
      if firstVal == 0 {
        fault := GetIndex(m2);
      } else {
        idx := idx + 1;
        fault := None;
      }
    }

    /** `less_than` */
    method LessThan(m1: Option<int>, m2: Option<int>, m3: Option<int>)
      modifies this
      ensures Model() == old(Model()).(core := IntcodeCore.LessThan(old(Model()).core, m1, m2, m3))
    {
      var firstVal := ReadParameter(m1);
      var secondVal := ReadParameter(m2);
      if firstVal < secondVal {
        WriteParameter(m3, 1);
      } else {
        WriteParameter(m3, 0);
      }
    }

    /** `equals` */
    method Equals(m1: Option<int>, m2: Option<int>, m3: Option<int>)
      modifies this
      ensures Model() == old(Model()).(core := IntcodeCore.Equals(old(Model()).core, m1, m2, m3))
    {
      var firstVal := ReadParameter(m1);
      var secondVal := ReadParameter(m2);
      if firstVal == secondVal {
        WriteParameter(m3, 1);
      } else {
        WriteParameter(m3, 0);
      }
    }

    /** `add_relative_offset` */
    method AddRelativeOffset(m1: Option<int>)
      modifies this
      ensures Model() == old(Model()).(core := IntcodeCore.AddRelativeOffset(old(Model()).core, m1))
    {
      var offset := ReadParameter(m1);
      relativeOffset := relativeOffset + offset;
    }

    /** `exit` */
    method Exit()
      modifies this
      ensures Model() == old(Model()).(finished := true)
    {
      finished := true;
    }

    /** The dispatcher: run the handler of opcode `instruction`; an opcode with no handler is fatal. */
    method Dispatch(instruction: nat, modeOne: Option<int>, modeTwo: Option<int>, modeThree: Option<int>) returns (fault: Option<Fault>)
      modifies this
      ensures var r := Perform(old(Model()), instruction, modeOne, modeTwo, modeThree);
        && (fault.None? <==> r.Success?)
        && (r.Success? ==> Model() == r.value)
        && (r.Failure? ==> fault == Some(r.fault))
    {
      fault := None;
      match instruction {
        case 1 => Add(modeOne, modeTwo, modeThree);
        case 2 => Multiply(modeOne, modeTwo, modeThree);
        case 3 => fault := Read(modeOne);
        case 4 => Write(modeOne);
        case 5 => fault := JumpIfTrue(modeOne, modeTwo);
        case 6 => fault := JumpIfFalse(modeOne, modeTwo);
        case 7 => LessThan(modeOne, modeTwo, modeThree);
        case 8 => Equals(modeOne, modeTwo, modeThree);
        case 9 => AddRelativeOffset(modeOne);
        case 99 => Exit();
        case _ => fault := Some(InvalidOpcode(instruction));
      }
    }

    /** `execute_instruction`: `fault` is the panic that ends the program, if any. */
    method ExecuteInstruction() returns (fault: Option<Fault>)
      modifies this
      ensures Yields(Step(old(Model())), fault, Model())
    {
      if idx !in memory {
        return Some(MissingKey(idx));
      }
      var nextCode := AsUsize(memory[idx]);
      var modeOne := ReadDigit(AsI64(nextCode), 3);
      var modeTwo := ReadDigit(AsI64(nextCode), 4);
      var modeThree := ReadDigit(AsI64(nextCode), 5);
      var instruction := nextCode % 100;
      idx := idx + 1;
      fault := Dispatch(instruction, modeOne, modeTwo, modeThree);
    }

    /** One instruction of a run that has not stopped, as one step of that run. */
    method RunOne(ghost start: Machine, ghost fuel: nat, remaining: nat) returns (fault: Option<Fault>, left: nat)
      requires !IsStopped(Model()) && remaining > 0 && Continues(start, fuel, Model(), remaining)
      modifies this
      ensures fault.Some? ==> Run(Step, IsStopped, start, fuel) == Crashed(fault.value)
      ensures fault.None? ==> Continues(start, fuel, Model(), left)
      ensures left < remaining
    {
      left := remaining - 1;
      ghost var before := Model();
      fault := ExecuteInstruction();
      RunContinues(Step, IsStopped, start, fuel, before, remaining, fault, Model(), left);
    }

    /**
     * `execute_instructions`, bounded by `fuel` instructions: the source's
     * loop runs until the machine stops, however long that takes.
     */
    method ExecuteInstructions(fuel: nat) returns (status: Status)
      modifies this
      ensures match Run(Step, IsStopped, old(Model()), fuel)
        case Stopped(m) => status == Returned && Model() == m
        case OutOfFuel(m) => status == Unfinished && Model() == m
        case Crashed(f) => status == Panicked(f)
    {
      ghost var start := Model();
      var remaining := fuel;
      while !finished && !(pauseExecution && out.Some?)
        invariant Continues(start, fuel, Model(), remaining)
        decreases remaining
      {
        if remaining == 0 {
          return Unfinished;
        }
        var fault;
        fault, remaining := RunOne(start, fuel, remaining);
        if fault.Some? {
          return Panicked(fault.value);
        }
      }
      status := Returned;
    }

    /** `print_initial_value`: cell 0 is printed whatever `disp_std_out` says; an absent cell 0 panics. */
    method PrintInitialValue() returns (fault: Option<Fault>)
      modifies this`stdout
      ensures fault.None? <==> 0 in memory
      ensures fault.None? ==> stdout == old(stdout) + [memory[0]]
      ensures fault.Some? ==> fault == Some(MissingKey(0)) && stdout == old(stdout)
    {
      if 0 !in memory {
        return Some(MissingKey(0));
      }
      stdout := stdout + [memory[0]];
      fault := None;
    }

    /** `get_output_value`: takes the pending output; unwrapping an empty slot panics. */
    method GetOutputValue() returns (value: int, fault: Option<Fault>)
      modifies this
      ensures fault.None? <==> old(out).Some?
      ensures fault.None? ==> value == old(out).value && Model() == old(Model()).(out := None)
      ensures fault.Some? ==> fault == Some(NoOutput) && Model() == old(Model())
    {
      if out.None? {
        return 0, Some(NoOutput);
      }
      value, fault := out.value, None;
      out := None;
    }

    /** `set_inputs` */
    method SetInputs(newInputs: seq<int>)
      modifies this
      ensures Model() == old(Model()).(inputs := newInputs)
    {
      inputs := newInputs;
    }

    /** `display_std_out` */
    method DisplayStdOut(display: bool)
      modifies this
      ensures Model() == old(Model()).(dispStdOut := display)
    {
      dispStdOut := display;
    }

    /** `pause_execution_on_output` */
    method PauseExecutionOnOutput(pause: bool)
      modifies this
      ensures Model() == old(Model()).(pauseExecution := pause)
    {
      pauseExecution := pause;
    }

    /** `has_finished` */
    method HasFinished() returns (done: bool)
      ensures done <==> Model().finished
    {
      done := finished;
    }
  }
}
