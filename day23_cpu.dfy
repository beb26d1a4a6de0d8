/**
 * The networked Intcode machine of day 23, at the one instantiation the
 * network uses: input comes from a `ConnectConsumer`, output goes to a
 * `ConnectProducer`. Besides the day 9 machine it counts its outputs and
 * records the opcode of the last instruction it ran. It has no console: a
 * `disp_std_out` flag is kept but nothing reads it.
 */
module Day23Cpu {
  import opened IntcodeCommon
  import opened IntcodeCore
  import opened IntcodeRun
  import opened Day23Endpoints

  datatype Machine = Machine(
    core: Core,
    out: Option<int>,
    inputs: seq<int>,
    dispStdOut: bool,
    pauseExecution: bool,
    finished: bool,
    consumer: ConnectConsumer,
    producer: Producer,
    previousInstruction: nat,
    numOutput: nat)

  /** A machine together with the queues of the network it is wired to. */
  type State = (Machine, Channels)

  function Initial(memory: Memory, consumer: ConnectConsumer, producer: Producer): (m: Machine)
    ensures m.core == Core(memory, 0, 0) && m.out.None? && !m.finished && !m.pauseExecution
    ensures m.consumer == consumer && m.producer == producer && m.numOutput == 0
    ensures m.inputs == [] && m.dispStdOut && m.previousInstruction == 0
  {
    Machine(Core(memory, 0, 0), None, [], true, false, false, consumer, producer, 0, 0)
  }

  /** Runs the handler of opcode `op`; `idx` already points past the instruction word. */
  function Perform(s: State, op: nat, m1: Option<int>, m2: Option<int>, m3: Option<int>): Result<State> {
    var (m, chs) := s;
    match op
    case 1 => Success((m.(core := Add(m.core, m1, m2, m3)), chs))
    case 2 => Success((m.(core := Multiply(m.core, m1, m2, m3)), chs))
    case 3 =>
      var received := Receive(m.consumer, chs);
      Success((m.(core := WriteParameter(m.core, m1, received.0)), received.1))
    case 4 =>
      var read := ReadParameter(m.core, m1);
      var loaded :- Load(m.producer, chs, read.1);
      Success((m.(core := read.0, producer := loaded.0, out := Some(read.1), numOutput := m.numOutput + 1), loaded.1))
    case 5 =>
      var c :- JumpIfTrue(m.core, m1, m2);
      Success((m.(core := c), chs))
    case 6 =>
      var c :- JumpIfFalse(m.core, m1, m2);
      Success((m.(core := c), chs))
    case 7 => Success((m.(core := LessThan(m.core, m1, m2, m3)), chs))
    case 8 => Success((m.(core := Equals(m.core, m1, m2, m3)), chs))
    case 9 => Success((m.(core := AddRelativeOffset(m.core, m1)), chs))
    case 99 => Success((m.(finished := true), chs))
    case _ => Failure(InvalidOpcode(op))
  }

  /**
   * `execute_instruction`: decode the word at `idx`, step past it, record
   * the opcode and dispatch. It runs whether or not the machine has finished.
   */
  function Step(s: State): Result<State> {
    var m := s.0;
    if m.core.idx !in m.core.memory then Failure(MissingKey(m.core.idx))
    else
      var cell := m.core.memory[m.core.idx];
      var op := DecodeOpcode(cell);
      Perform((m.(core := m.core.(idx := m.core.idx + 1), previousInstruction := op), s.1), op,
              DecodeMode(cell, 1), DecodeMode(cell, 2), DecodeMode(cell, 3))
  }

  predicate AtOpcode(m: Machine, op: nat) {
    m.core.idx in m.core.memory && DecodeOpcode(m.core.memory[m.core.idx]) == op
  }

  function Mode(m: Machine, k: nat): Option<int>
    requires m.core.idx in m.core.memory && 1 <= k <= 3
  {
    DecodeMode(m.core.memory[m.core.idx], k)
  }

  function Entered(m: Machine): Core
    requires m.core.idx in m.core.memory
  {
    m.core.(idx := m.core.idx + 1)
  }

  /**
   * Every instruction records its opcode in `previousInstruction`, counts
   * one output exactly when it is opcode 4, and leaves `inputs` alone.
   */
  lemma StepBookkeeping(s: State)
    requires Step(s).Success?
    ensures var m := s.0; var n := Step(s).value.0;
      && n.previousInstruction == DecodeOpcode(m.core.memory[m.core.idx])
      && n.numOutput == m.numOutput + (if AtOpcode(m, 4) then 1 else 0)
      && n.inputs == m.inputs
      && n.pauseExecution == m.pauseExecution
      && n.consumer == m.consumer
      && (m.finished ==> n.finished)
  {
  }

  /** Only input and output instructions touch the queues or the producer. */
  lemma StepKeepsEndpoints(s: State)
    requires Step(s).Success? && !AtOpcode(s.0, 3) && !AtOpcode(s.0, 4)
    ensures Step(s).value.1 == s.1
    ensures Step(s).value.0.producer == s.0.producer
  {
  }

  /** An input instruction stores what the consumer hands over: the front of the machine's queue, or -1. */
  lemma InputStep(s: State)
    requires AtOpcode(s.0, 3)
    ensures Step(s).Success?
    ensures var received := Receive(s.0.consumer, s.1);
      && Step(s).value.1 == received.1
      && Step(s).value.0.core == WriteParameter(Entered(s.0), Mode(s.0, 1), received.0)
  {
  }

  /**
   * An output instruction first hands its value to the producer, then fills
   * the pending-output slot and counts the output; it faults exactly when
   * the producer does.
   */
  lemma OutputStep(s: State)
    requires AtOpcode(s.0, 4)
    ensures var value := Operand(Entered(s.0), 0, Mode(s.0, 1));
      var loaded := Load(s.0.producer, s.1, value);
      && (Step(s).Success? <==> loaded.Success?)
      && (Step(s).Success? ==>
            && Step(s).value.0.out == Some(value)
            && Step(s).value.0.producer == loaded.value.0
            && Step(s).value.1 == loaded.value.1
            && Step(s).value.0.core.idx == s.0.core.idx + 2)
  {
  }

  /** The stop condition of `execute_instructions`. */
  predicate IsStopped(s: State) {
    s.0.finished || (s.0.pauseExecution && s.0.out.Some?)
  }

  /** The stop condition of `run_until_num_out(n)`. */
  function HasOutput(n: nat): State -> bool {
    (s: State) => s.0.numOutput >= n
  }

  /** A run from `s`, with `remaining` fuel, ends as the run from `start` with `fuel` does. */
  ghost predicate Continues(stopped: State -> bool, start: State, fuel: nat, s: State, remaining: nat) {
    Run(Step, stopped, start, fuel) == Run(Step, stopped, s, remaining)
  }

  /** `run_until_num_out(n)`, bounded by `fuel`: run until `n` outputs are counted, then reset the count. */
  function UntilOutputs(s: State, n: nat, fuel: nat): (r: Outcome<State>)
    ensures r.Stopped? ==> r.state.0.numOutput == 0
  {
    match Run(Step, HasOutput(n), s, fuel)
    case Stopped(t) => Stopped((t.0.(numOutput := 0), t.1))
    case OutOfFuel(t) => OutOfFuel(t)
    case Crashed(f) => Crashed(f)
  }

  /**
   * A run to `n` outputs started with at most `n` counted stops with
   * exactly `n` counted: one output instruction per output, so after a
   * first output, running to 3 completes one packet of three values.
   */
  lemma {:induction false} UntilOutputsIsExact(s: State, n: nat, fuel: nat)
    requires s.0.numOutput <= n
    requires Run(Step, HasOutput(n), s, fuel).Stopped?
    ensures Run(Step, HasOutput(n), s, fuel).state.0.numOutput == n
  {
    var atMost := (t: State) => t.0.numOutput <= n;
    forall t: State | atMost(t) && !HasOutput(n)(t) && Step(t).Success?
      ensures atMost(Step(t).value)
    {
      StepBookkeeping(t);
    }
    RunPreserves(Step, HasOutput(n), atMost, s, fuel);
  }

  class Cpu {
    var memory: Memory
    var idx: nat
    var out: Option<int>
    var inputs: seq<int>
    var dispStdOut: bool
    var pauseExecution: bool
    var finished: bool
    var relativeOffset: int
    var inputConsumer: ConnectConsumer
    var outputProducer: ConnectProducer
    var previousInstruction: nat
    var numOutput: nat

    function Model(): Machine
      reads this, outputProducer
    {
      Machine(Core(memory, idx, relativeOffset), out, inputs, dispStdOut, pauseExecution, finished,
              inputConsumer, outputProducer.Model(), previousInstruction, numOutput)
    }

    /** `initialise` */
    constructor Initialise(program: Memory, consumer: ConnectConsumer, producer: ConnectProducer)
      ensures outputProducer == producer
      ensures Model() == Initial(program, consumer, producer.Model())
    {
      memory := program;
      idx := 0;
      out := None;
      inputs := [];
      dispStdOut := true;
      pauseExecution := false;
      finished := false;
      relativeOffset := 0;
      inputConsumer := consumer;
      outputProducer := producer;
      previousInstruction := 0;
      numOutput := 0;
    }

    /** `private_check_memory` */
    method CheckMemory(address: nat) returns (value: int)
      modifies this`memory
      ensures var r := IntcodeCore.CheckMemory(old(memory), address);
        value == r.1 && memory == r.0
    {
      if address !in memory {
        value := 0;
        memory := memory[address := 0];
      } else {
        value := memory[address];
      }
    }

    /** `private_read_parameter` */
    method ReadParameter(mode: Option<int>) returns (value: int)
      modifies this`memory, this`idx
      ensures var r := IntcodeCore.ReadParameter(Core(old(memory), old(idx), relativeOffset), mode);
        value == r.1 && Core(memory, idx, relativeOffset) == r.0
    {
      var address: nat;
      match mode {
        case Some(1) =>
          address := idx;
        case Some(2) =>
          var cell := CheckMemory(idx);
          address := AsUsize(cell + relativeOffset);
        case _ =>
          var cell := CheckMemory(idx);
          address := AsUsize(cell);
      }
      idx := idx + 1;
      value := CheckMemory(address);
    }

    /** `private_write_parameter` */
    method WriteParameter(mode: Option<int>, output: int)
      modifies this`memory, this`idx
      ensures Core(memory, idx, relativeOffset) == IntcodeCore.WriteParameter(Core(old(memory), old(idx), relativeOffset), mode, output)
    {
      var outputSave: int;
      match mode {
        case Some(2) =>
          var cell := CheckMemory(idx);
          outputSave := cell + relativeOffset;
        case _ =>
          outputSave := CheckMemory(idx);
      }
      memory := memory[AsUsize(outputSave) := output];
      idx := idx + 1;
    }

    /** `private_get_index`: `fault` is the panic of indexing an absent cell. */
    method GetIndex(mode: Option<int>) returns (fault: Option<Fault>)
      modifies this`idx
      ensures var r := IntcodeCore.GetIndex(Core(memory, old(idx), relativeOffset), mode);
        && (fault.None? <==> r.Success?)
        && (r.Success? ==> Core(memory, idx, relativeOffset) == r.value)
        && (r.Failure? ==> fault == Some(r.fault))
    {
      if idx !in memory {
        return Some(MissingKey(idx));
      }
      var position: nat;
      match mode {
        case Some(1) =>
          idx := AsUsize(memory[idx]);
          return None;
        case Some(2) =>
          position := AsUsize(memory[idx] + relativeOffset);
        case _ =>
          position := AsUsize(memory[idx]);
      }
      if position !in memory {
        return Some(MissingKey(position));
      }
      idx := AsUsize(memory[position]);
      fault := None;
    }

    /** `add` */
    method Add(m1: Option<int>, m2: Option<int>, m3: Option<int>)
      modifies this`memory, this`idx
      ensures Core(memory, idx, relativeOffset) == IntcodeCore.Add(Core(old(memory), old(idx), relativeOffset), m1, m2, m3)
    {
      var firstVal := ReadParameter(m1);
      var secondVal := ReadParameter(m2);
      WriteParameter(m3, firstVal + secondVal);
    }

    /** `multiply` */
    method Multiply(m1: Option<int>, m2: Option<int>, m3: Option<int>)
      modifies this`memory, this`idx
      ensures Core(memory, idx, relativeOffset) == IntcodeCore.Multiply(Core(old(memory), old(idx), relativeOffset), m1, m2, m3)
    {
      var firstVal := ReadParameter(m1);
      var secondVal := ReadParameter(m2);
      WriteParameter(m3, firstVal * secondVal);
    }

    /** `read`: the value comes from the consumer. */
    method Read(m1: Option<int>, bus: Bus)
      modifies this`memory, this`idx, bus
      ensures var received := Receive(inputConsumer, old(bus.channels));
        && bus.channels == received.1
        && Core(memory, idx, relativeOffset) == IntcodeCore.WriteParameter(Core(old(memory), old(idx), relativeOffset), m1, received.0)
    {
      var input := inputConsumer.GetValue(bus);
      WriteParameter(m1, input);
    }

    /** `write`: the value goes to the producer, then to the pending-output slot. */
    method Write(m1: Option<int>, bus: Bus) returns (fault: Option<Fault>)
      modifies this`memory, this`idx, this`out, this`numOutput, outputProducer, bus
      ensures var r := Perform((old(Model()), old(bus.channels)), 4, m1, None, None);
        && (fault.None? <==> r.Success?)
        && (r.Success? ==> Model() == r.value.0 && bus.channels == r.value.1)
        && (r.Failure? ==> fault == Some(r.fault))
    {
      var value := ReadParameter(m1);
      fault := outputProducer.LoadValue(value, bus);
      if fault.Some? {
        return;
      }
      out := Some(value);
      numOutput := numOutput + 1;
    }

    /** `jump_if_true` */
    method JumpIfTrue(m1: Option<int>, m2: Option<int>) returns (fault: Option<Fault>)
      modifies this`memory, this`idx
      ensures var r := IntcodeCore.JumpIfTrue(Core(old(memory), old(idx), relativeOffset), m1, m2);
        && (fault.None? <==> r.Success?)
        && (r.Success? ==> Core(memory, idx, relativeOffset) == r.value)
        && (r.Failure? ==> fault == Some(r.fault))
    {
      var firstVal := ReadParameter(m1);
      if firstVal != 0 {
        fault := GetIndex(m2);
      } else {
        idx := idx + 1;
        fault := None;
      }
    }

    /** `jump_if_false` */
    method JumpIfFalse(m1: Option<int>, m2: Option<int>) returns (fault: Option<Fault>)
      modifies this`memory, this`idx
      ensures var r := IntcodeCore.JumpIfFalse(Core(old(memory), old(idx), relativeOffset), m1, m2);
        && (fault.None? <==> r.Success?)
        && (r.Success? ==> Core(memory, idx, relativeOffset) == r.value)
        && (r.Failure? ==> fault == Some(r.fault))
    {
      var firstVal := ReadParameter(m1);
      if firstVal == 0 {
        fault := GetIndex(m2);
      } else {
        idx := idx + 1;
        fault := None;
      }
    }

    /** `less_than` */
    method LessThan(m1: Option<int>, m2: Option<int>, m3: Option<int>)
      modifies this`memory, this`idx
      ensures Core(memory, idx, relativeOffset) == IntcodeCore.LessThan(Core(old(memory), old(idx), relativeOffset), m1, m2, m3)
    {
      var firstVal := ReadParameter(m1);
      var secondVal := ReadParameter(m2);
      if firstVal < secondVal {
        WriteParameter(m3, 1);
      } else {
        WriteParameter(m3, 0);
      }
    }

    /** `equals` */
    method Equals(m1: Option<int>, m2: Option<int>, m3: Option<int>)
      modifies this`memory, this`idx
      ensures Core(memory, idx, relativeOffset) == IntcodeCore.Equals(Core(old(memory), old(idx), relativeOffset), m1, m2, m3)
    {
      var firstVal := ReadParameter(m1);
      var secondVal := ReadParameter(m2);
      if firstVal == secondVal {
        WriteParameter(m3, 1);
      } else {
        WriteParameter(m3, 0);
      }
    }

    /** `add_relative_offset` */
    method AddRelativeOffset(m1: Option<int>)
      modifies this`memory, this`idx, this`relativeOffset
      ensures Core(memory, idx, relativeOffset) == IntcodeCore.AddRelativeOffset(Core(old(memory), old(idx), old(relativeOffset)), m1)
    {
      var offset := ReadParameter(m1);
      relativeOffset := relativeOffset + offset;
    }

    /** `exit` */
    method Exit()
      modifies this`finished
      ensures finished
    {
      finished := true;
    }

    /** The dispatcher: run the handler of opcode `instruction`; an opcode with no handler is fatal. */
    method Dispatch(instruction: nat, modeOne: Option<int>, modeTwo: Option<int>, modeThree: Option<int>, bus: Bus)
      returns (fault: Option<Fault>)
      modifies this`memory, this`idx, this`out, this`numOutput, this`relativeOffset, this`finished, outputProducer, bus
      ensures var r := Perform((old(Model()), old(bus.channels)), instruction, modeOne, modeTwo, modeThree);
        && (fault.None? <==> r.Success?)
        && (r.Success? ==> Model() == r.value.0 && bus.channels == r.value.1)
        && (r.Failure? ==> fault == Some(r.fault))
    {
      fault := None;
      if instruction == 3 {
        Read(modeOne, bus);
      } else if instruction == 4 {
        fault := Write(modeOne, bus);
      } else if instruction in {1, 2, 7, 8} {
        Arithmetic(instruction, modeOne, modeTwo, modeThree);
      } else {
        fault := Control(instruction, modeOne, modeTwo);
      }
    }

    /** The handlers of the four instructions that combine two operands into a third. */
    method Arithmetic(instruction: nat, modeOne: Option<int>, modeTwo: Option<int>, modeThree: Option<int>)
      requires instruction in {1, 2, 7, 8}
      modifies this`memory, this`idx
      ensures Perform((old(Model()), []), instruction, modeOne, modeTwo, modeThree) == Success((Model(), []))
    {
      match instruction {
        case 1 => Add(modeOne, modeTwo, modeThree);
        case 2 => Multiply(modeOne, modeTwo, modeThree);
        case 7 => LessThan(modeOne, modeTwo, modeThree);
        case 8 => Equals(modeOne, modeTwo, modeThree);
      }
    }

    /** The handlers of jumps, the relative base, halting and unknown opcodes. */
    method Control(instruction: nat, modeOne: Option<int>, modeTwo: Option<int>) returns (fault: Option<Fault>)
      requires instruction !in {1, 2, 3, 4, 7, 8}
      modifies this`memory, this`idx, this`relativeOffset, this`finished
      ensures var r := Perform((old(Model()), []), instruction, modeOne, modeTwo, None);
        && (fault.None? <==> r.Success?)
        && (r.Success? ==> Model() == r.value.0)
        && (r.Failure? ==> fault == Some(r.fault))
    {
      fault := None;
      match instruction {
        case 5 => fault := JumpIfTrue(modeOne, modeTwo);
        case 6 => fault := JumpIfFalse(modeOne, modeTwo);
        case 9 => AddRelativeOffset(modeOne);
        case 99 => Exit();
        case _ => fault := Some(InvalidOpcode(instruction));
      }
    }

    /** `execute_instruction`: `fault` is the panic that ends the program, if any. */
    method ExecuteInstruction(bus: Bus) returns (fault: Option<Fault>)
      modifies this`memory, this`idx, this`out, this`numOutput, this`relativeOffset, this`finished,
               this`previousInstruction, outputProducer, bus
      ensures Yields(Step((old(Model()), old(bus.channels))), fault, (Model(), bus.channels))
    {
      if idx !in memory {
        return Some(MissingKey(idx));
      }
      var nextCode := AsUsize(memory[idx]);
      var modeOne := ReadDigit(AsI64(nextCode), 3);
      var modeTwo := ReadDigit(AsI64(nextCode), 4);
      var modeThree := ReadDigit(AsI64(nextCode), 5);
      var instruction := nextCode % 100;
      idx := idx + 1;
      previousInstruction := instruction;
      fault := Dispatch(instruction, modeOne, modeTwo, modeThree, bus);
    }

    /** One instruction of a run that has not stopped, as one step of that run. */
    method RunOne(bus: Bus, ghost stopped: State -> bool, ghost start: State, ghost fuel: nat, remaining: nat)
      returns (fault: Option<Fault>, left: nat)
      requires !stopped((Model(), bus.channels)) && remaining > 0
      requires Continues(stopped, start, fuel, (Model(), bus.channels), remaining)
      modifies this`memory, this`idx, this`out, this`numOutput, this`relativeOffset, this`finished,
               this`previousInstruction, outputProducer, bus
      ensures fault.Some? ==> Run(Step, stopped, start, fuel) == Crashed(fault.value)
      ensures fault.None? ==> Continues(stopped, start, fuel, (Model(), bus.channels), left)
      ensures left < remaining
    {
      left := remaining - 1;
      ghost var before := (Model(), bus.channels);
      fault := ExecuteInstruction(bus);
      RunContinues(Step, stopped, start, fuel, before, remaining, fault, (Model(), bus.channels), left);
    }

    /** `execute_instructions`, bounded by `fuel` instructions. */
    method ExecuteInstructions(bus: Bus, fuel: nat) returns (status: Status)
      modifies this`memory, this`idx, this`out, this`numOutput, this`relativeOffset, this`finished,
               this`previousInstruction, outputProducer, bus
      ensures match Run(Step, IsStopped, (old(Model()), old(bus.channels)), fuel)
        case Stopped(s) => status == Returned && Model() == s.0 && bus.channels == s.1
        case OutOfFuel(s) => status == Unfinished && Model() == s.0 && bus.channels == s.1
        case Crashed(f) => status == Panicked(f)
    {
      ghost var start := (Model(), bus.channels);
      var remaining := fuel;
      while !finished && !(pauseExecution && out.Some?)
        invariant Continues(IsStopped, start, fuel, (Model(), bus.channels), remaining)
        decreases remaining
      {
        if remaining == 0 {
          return Unfinished;
        }
        var fault;
        fault, remaining := RunOne(bus, IsStopped, start, fuel, remaining);
        if fault.Some? {
          return Panicked(fault.value);
        }
      }
      status := Returned;
    }

    /** `run_until_num_out`, bounded by `fuel` instructions. */
    method RunUntilNumOut(target: nat, bus: Bus, fuel: nat) returns (status: Status)
      modifies this`memory, this`idx, this`out, this`numOutput, this`relativeOffset, this`finished,
               this`previousInstruction, outputProducer, bus
      ensures match UntilOutputs((old(Model()), old(bus.channels)), target, fuel)
        case Stopped(s) => status == Returned && Model() == s.0 && bus.channels == s.1
        case OutOfFuel(s) => status == Unfinished && Model() == s.0 && bus.channels == s.1
        case Crashed(f) => status == Panicked(f)
    {
      var remaining := fuel;
      while numOutput < target
        invariant Continues(HasOutput(target), (old(Model()), old(bus.channels)), fuel, (Model(), bus.channels), remaining)
        decreases remaining
      {
        if remaining == 0 {
          return Unfinished;
        }
        var fault;
        fault, remaining := RunOne(bus, HasOutput(target), (old(Model()), old(bus.channels)), fuel, remaining);
        if fault.Some? {
          return Panicked(fault.value);
        }
      }
      numOutput := 0;
      status := Returned;
    }

    /** `get_previous_instruction` */
    method GetPreviousInstruction() returns (instruction: nat)
      ensures instruction == Model().previousInstruction
    {
      instruction := previousInstruction;
    }

    /**
     * `print_initial_value`: the machine writes to no log, so the value it
     * prints is returned; an absent cell 0 panics.
     */
    method PrintInitialValue() returns (printed: Result<int>)
      ensures printed.Success? <==> 0 in memory
      ensures printed.Success? ==> printed.value == memory[0]
      ensures printed.Failure? ==> printed.fault == MissingKey(0)
    {
      if 0 !in memory {
        return Failure(MissingKey(0));
      }
      printed := Success(memory[0]);
    }

    /** `get_output_value`: takes the pending output; unwrapping an empty slot panics. */
    method GetOutputValue() returns (value: int, fault: Option<Fault>)
      modifies this`out
      ensures fault.None? <==> old(out).Some?
      ensures fault.None? ==> value == old(out).value && Model() == old(Model()).(out := None)
      ensures fault.Some? ==> fault == Some(NoOutput) && Model() == old(Model())
    {
      if out.None? {
        return 0, Some(NoOutput);
      }
      value, fault := out.value, None;
      out := None;
    }

    /** `has_value` */
    method HasValue() returns (pending: bool)
      ensures pending <==> Model().out.Some?
    {
      pending := out.Some?;
    }

    /** `set_inputs`: stored, but no instruction ever reads these values. */
    method SetInputs(newInputs: seq<int>)
      modifies this`inputs
      ensures inputs == newInputs
    {
      inputs := newInputs;
    }

    /** `set_inputs_consumer`: nothing but the consumer changes. */
    method SetInputsConsumer(consumer: ConnectConsumer)
      modifies this`inputConsumer
      ensures Model() == old(Model()).(consumer := consumer)
    {
      inputConsumer := consumer;
    }

    /** `set_outputs_producer`: nothing but the producer changes. */
    method SetOutputsProducer(producer: ConnectProducer)
      modifies this`outputProducer
      ensures outputProducer == producer
      ensures Model() == old(Model()).(producer := producer.Model())
    {
      outputProducer := producer;
    }

    /** `display_std_out` */
    method DisplayStdOut(display: bool)
      modifies this`dispStdOut
      ensures dispStdOut == display
    {
      dispStdOut := display;
    }

    /** `pause_execution_on_output` */
    method PauseExecutionOnOutput(pause: bool)
      modifies this`pauseExecution
      ensures pauseExecution == pause
    {
      pauseExecution := pause;
    }

    /** `has_finished` */
    method HasFinished() returns (done: bool)
      ensures done <==> Model().finished
    {
      done := finished;
    }
  }
}
