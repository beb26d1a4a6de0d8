# Intcode machines of Advent of Code 2019, in Dafny

This project models the Intcode interpreters of a Rust solution to Advent of
Code 2019, and the day 23 network built from them. It then proves
properties of the model. The interpreters are:

- day 2: the first interpreter, `process_opcodes`. It has unsigned cells and
  knows only opcode 1 (add) and 99 (halt). Every other opcode multiplies.
- day 5: the first machine with a dispatcher. It has fixed operand offsets,
  and only mode digit 1 means immediate.
- day 7: a machine with an input queue and an output value. Its operands
  are read through `private_read_parameter`.
- day 9: the full machine. It adds relative mode, a memory that grows on
  demand, a pending-output slot and the pause and finish flags.
- day 23: the day 9 machine wired to a network. Its reads come from a
  `ConnectConsumer` and its writes go to a `ConnectProducer`. Fifty of them
  are polled in turn by `execute_loop`. The NAT watches their reports and
  resends the last packet addressed to 255 once the network has been idle
  long enough.

Every panic the Rust code can raise becomes a `Fault`. A panic is a missing
`HashMap` key, an opcode with no handler, an exhausted console, a packet
for an address no computer has, an `unwrap` on an empty NAT queue, an
`unwrap` on an empty pending-output slot or a program text that does not
parse. Rust's `as usize` and `as i64` casts are
written out exactly, as two's complement reinterpretation on 64 bits
(`AsUsize`, `AsI64`). Rust's truncating `/` and `%` are written out too
(`TruncDiv`, `TruncRem`). So negative mode digits and negative addresses
behave as they do in the source.

Each machine has two layers:

- Pure and stepwise: a datatype of the whole state, a `Step` function for
  one instruction, and the generic bounded loop `IntcodeRun.Run`. The
  lemmas are proved about these.
- A class: it mutates memory, `idx`, the flags and the queues in place, one
  method per Rust method. Each method is proved to leave exactly the state
  the functions describe.

The run loops of the Rust code need not terminate, so every run carries a
`fuel` bound. Running out of fuel is reported apart from halting and from
panicking.

The day 23 channels are one `Bus` object holding a queue per channel.
Queues 0 to 49 belong to the computers and queue 50 belongs to the NAT. A
`SyncSender` or `Receiver` is the index of its queue.

Two behaviours of the source are kept exactly as written:

- A packet addressed to 255 does not reset the producer's count, so every
  later pair of outputs of that computer is also sent to the NAT
  (`PacketForNat`).
- On day 7 and day 9, inputs given with `set_inputs` are consumed from the
  back, last in first out (`InputIsLastInFirstOut`).

## Model

| member | source | states |
|---|---|---|
| IntcodeCommon.AsUsize | src/day09/cpu.rs:75 | `i64 as usize` is below 2^64, is the identity on non-negative values and adds 2^64 to negative ones |
| IntcodeCommon.AsI64 | src/day09/cpu.rs:76-78 | `usize as i64` lies in the `i64` range, is the identity below 2^63 and subtracts 2^64 above it |
| IntcodeCommon.CastRoundTrip | src/day09/cpu.rs:75-78 | casting an `i64` to `usize` and back gives the value back |
| IntcodeCommon.TruncDiv | src/day09/cpu.rs:70-72 | signed division agrees with floor division on non-negative dividends and is at most 0 on negative ones |
| IntcodeCommon.TruncRem | src/day09/cpu.rs:70-72 | the remainder agrees with `%` on non-negative dividends and lies in (-b, 0] on negative ones |
| IntcodeCommon.ReadDigit | src/day09/cpu.rs:70-72 | `read_digit` always answers `Some`, a digit in -9..9, which is the decimal digit at `place` for non-negative words |
| IntcodeCommon.ReadDigitShift | src/day09/cpu.rs:70-72 | appending a units digit to a non-negative word moves every digit up one place, and place 1 reads the appended digit |
| IntcodeCommon.DecodeOpcode | src/day09/cpu.rs:75-80 | the opcode is below 100 and is the word modulo 100 for words that are valid `usize` values |
| IntcodeCommon.DecodeMode | src/day09/cpu.rs:75-78 | the mode of every operand is always `Some` |
| IntcodeCommon.DecodeDigits | src/day09/cpu.rs:74-80 | for non-negative words, the opcode is the two low digits and mode k is digit k+2, which is 0 when the word has no such digit |
| IntcodeCommon.ZeroExtensionKeepsView | src/day09/cpu.rs:234-245 | materialising absent cells as 0 never changes what any read sees |
| IntcodeCommon.Cell | day05/cpu.rs:92 | `memory[&a]` succeeds exactly when `a` is a key, gives its value, and otherwise panics with `MissingKey(a)` |
| IntcodeCommon.Store | day05/cpu.rs:114-115 | `get_mut(&a).unwrap() = v` succeeds exactly when `a` is a key; it sets `a` to `v` and keeps every other key and value |
| IntcodeCommon.Fetch | day05/cpu.rs:90-98 | an operand in mode 1 is the cell itself; in any other mode it is the cell the cell points to, present exactly when both keys are |
| IntcodeCommon.MapOf | src/day23/challenge.rs:191-196 | the memory built from a program has exactly the keys 0..n-1, with value i at key i; day 2 builds its `u64` memory the same way |
| IntcodeCommon.TakeInput | src/day09/cpu.rs:107-118 | the input of day 7 and day 9 pops the last queued value if any, else takes the next console line, and panics when both are exhausted |
| IntcodeCore.CheckMemory | src/day09/cpu.rs:234-245 | `private_check_memory` answers the zero-default value of the cell, leaves the cell present, and leaves a present cell's memory unchanged |
| IntcodeCore.CheckMemoryFootprint | src/day09/cpu.rs:237-239 | checking a cell adds exactly that key, with value 0 if it was absent |
| IntcodeCore.ReadParameter | src/day09/cpu.rs:204-216 | `private_read_parameter` moves `idx` on by one, keeps the relative base and answers the operand its mode designates |
| IntcodeCore.ReadParameterFootprint | src/day09/cpu.rs:204-216 | a read adds exactly the operand cell and the cell it resolves to, and no read afterwards sees a different value |
| IntcodeCore.WriteParameter | src/day09/cpu.rs:247-257 | `private_write_parameter` moves `idx` on by one and stores the value at the target; immediate mode is treated as position mode |
| IntcodeCore.WriteParameterFootprint | src/day09/cpu.rs:247-257 | a write adds exactly the operand cell and the target, and every other cell reads as before |
| IntcodeCore.GetIndex | src/day09/cpu.rs:218-232 | `private_get_index` succeeds exactly when the cells it indexes are present; it then sets `idx` to the operand cast to `usize` and otherwise panics with a missing key |
| IntcodeCore.ArithmeticStores | src/day09/cpu.rs:87-175 | `add`, `multiply`, `less_than` and `equals` store a+b, a*b, 1 or 0 for a<b, and 1 or 0 for a==b at the third operand's target; `idx` moves past the three operands, the relative base is kept and every other cell reads as before |
| IntcodeCore.BinaryOperationStores | src/day09/cpu.rs:87-175 | the shape the four arithmetic handlers share, two reads then a write, stores the combination of the two operands at the target and changes nothing else a read sees |
| IntcodeCore.StoreAfterTwoReads | src/day09/cpu.rs:87-95 | two reads followed by a write store exactly the written value at the third operand's target |
| IntcodeCore.StoreAfterTwoReadsKeys | src/day09/cpu.rs:87-95 | two reads and a write add exactly the three operand cells, the cells they resolve to and the target |
| IntcodeCore.TwoReadsKeys | src/day09/cpu.rs:88-89 | two reads add exactly their operand cells and the cells they resolve to, and change no value a read sees |
| IntcodeCore.StoreAfterTwoReadsValues | src/day09/cpu.rs:87-95 | after two reads and a write, every cell but the target reads as before the instruction |
| IntcodeCore.SameViewChains | src/day09/cpu.rs:234-245 | memories that read alike chain: zero-extension steps compose |
| IntcodeCore.ShiftedOperands | src/day09/cpu.rs:204-216 | after reads that keep the view, the following operands are the instruction's later operands |
| IntcodeCore.JumpEffect | src/day09/cpu.rs:133-153 | an untaken jump always succeeds and skips both operands; a taken one succeeds exactly when the cells its target lookup indexes exist, and lands on the target cast to `usize`; only the condition's cells are added and the relative base is kept |
| IntcodeCore.AddRelativeOffset | src/day09/cpu.rs:177-180 | `add_relative_offset` adds the operand to the relative base, moves `idx` on by one and touches memory only as the read does |
| IntcodeRun.Run | src/day09/cpu.rs:64-68 | the bounded run loop stops only in a stopped state, runs out of fuel only in a running state, and returns at once from a stopped state |
| IntcodeRun.RunStep | src/day09/cpu.rs:64-68 | one pass of the loop from a running state continues from the next state, or ends in that step's panic |
| IntcodeRun.RunContinues | src/day09/cpu.rs:64-68 | a step from a state part-way through a run either ends the run in its panic or continues it with one unit of fuel less |
| IntcodeRun.MoreFuel | src/day09/cpu.rs:64-68 | a run that ended before its fuel ran out ends the same way with any larger fuel |
| IntcodeRun.RunResumes | src/day09/cpu.rs:64-68 | running for `fuel + extra` is running for `fuel` and then resuming for `extra` |
| IntcodeRun.RunPreserves | src/day09/cpu.rs:64-68 | a property every step from a running state preserves holds of the state a run ends in |
| Day02Intcode.Step | day02/challenge.rs:17-44 | one pass keeps `size` and, inside the loop, strictly advances `idx`, so the loop terminates |
| Day02Intcode.HaltEndsLoop | day02/challenge.rs:20-21 | opcode 99 sets `idx` past `size` and the loop ends on exactly that state |
| Day02Intcode.InstructionEffect | day02/challenge.rs:22-41 | any other opcode succeeds exactly when its four cells and two operands exist; it stores the sum for opcode 1 and the product otherwise, and moves on four cells |
| Day02Intcode.StepKeepsKeys | day02/challenge.rs:40 | no pass adds or removes an address |
| Day02Intcode.LoopKeepsKeys | day02/challenge.rs:16-45 | the loop ends with the addresses it started with, the same `size` and `idx` at least `size` |
| Day02Intcode.ProcessedIsCellZero | day02/challenge.rs:47 | a program with cell 0 whose loop completes answers the final value of cell 0 |
| Day02Intcode.FirstExample | day02/challenge.rs:12-48 | `1,0,0,0,99` ends as `2,0,0,0,99` and answers 2 |
| Day02Intcode.SecondExampleAdds | day02/challenge.rs:22-41 | the first instruction of `1,9,10,3,2,3,11,0,99,30,40,50` stores 70 at address 3 |
| Day02Intcode.SecondExampleMultiplies | day02/challenge.rs:22-41 | its second instruction stores 3500 at address 0 |
| Day02Intcode.SecondExample | day02/challenge.rs:12-48 | the second example answers 3500 |
| Day02Intcode.ProcessOpcodes | day02/challenge.rs:12-48 | the imperative loop answers what the loop function defines, panics included |
| Day02Intcode.ProcessOne | day02/challenge.rs:17-44 | one pass of the loop body yields the next state or the panic, and the rest of the loop goes on from there |
| Day05Cpu.Initial | day05/cpu.rs:30-43 | `initialise` starts at `idx` 0 with the given memory and nothing printed |
| Day05Cpu.OpcodeIsLowDigits | day05/cpu.rs:80 | the opcode built from the tens and units digits is the word modulo 100 |
| Day05Cpu.DecodingAgrees | day05/cpu.rs:54-80 | for non-negative words, day 5's decoding agrees with day 9's on the opcode and on whether each mode is immediate |
| Day05Cpu.StepFaults | day05/cpu.rs:53-83 | a missing `idx` panics with that key, and an opcode with no handler panics as invalid |
| Day05Cpu.ArithmeticStep | day05/cpu.rs:86-311 | the four arithmetic opcodes succeed exactly when their operands and target exist; they store the combined value and move on four cells |
| Day05Cpu.InputStep | day05/cpu.rs:153-163 | input stores the next console line at the target and moves on two cells, and panics when the console is exhausted |
| Day05Cpu.OutputStep | day05/cpu.rs:165-181 | output succeeds exactly when its operand exists; it prints it and moves on two cells |
| Day05Cpu.JumpNotTaken | day05/cpu.rs:183-241 | a jump whose condition fails moves on three cells |
| Day05Cpu.JumpTaken | day05/cpu.rs:183-241 | a jump whose condition holds succeeds exactly when its target exists and lands on it |
| Day05Cpu.StepKeepsKeys | day05/cpu.rs:86-315 | no instruction adds or removes an address |
| Day05Cpu.RunKeepsKeys | day05/cpu.rs:45-51 | a run that did not panic ends with the addresses it started with |
| Day05Cpu.HaltEndsRun | day05/cpu.rs:313-315 | opcode 99 moves `idx` to the memory's size and the run stops right there |
| Day05Cpu.Cpu.Initialise | day05/cpu.rs:30-43 | the new machine holds the initial state |
| Day05Cpu.Cpu.Operand | day05/cpu.rs:90-108 | the operand match yields the value `Fetch` defines, or its panic |
| Day05Cpu.Cpu.StoreAt | day05/cpu.rs:114-115 | the store changes memory as `Store` defines, or panics |
| Day05Cpu.Cpu.BinaryOperation | day05/cpu.rs:86-311 | the shared arithmetic body leaves the state the arithmetic function defines, or its panic |
| Day05Cpu.Cpu.WriteResult | day05/cpu.rs:113-117 | the write that ends an arithmetic handler stores at the address held at `idx + 3` and moves on four cells |
| Day05Cpu.Cpu.Add | day05/cpu.rs:86-118 | `add` leaves the state arithmetic opcode 1 defines |
| Day05Cpu.Cpu.Multiply | day05/cpu.rs:120-151 | `multiply` leaves the state opcode 2 defines |
| Day05Cpu.Cpu.LessThan | day05/cpu.rs:243-276 | `less_than` leaves the state opcode 7 defines |
| Day05Cpu.Cpu.Equals | day05/cpu.rs:278-311 | `equals` leaves the state opcode 8 defines |
| Day05Cpu.Cpu.Read | day05/cpu.rs:153-163 | `read` leaves the state input defines, or panics |
| Day05Cpu.Cpu.Write | day05/cpu.rs:165-181 | `write` leaves the state output defines, or panics |
| Day05Cpu.Cpu.ConditionalJump | day05/cpu.rs:183-241 | the shared jump body leaves the state the jump function defines |
| Day05Cpu.Cpu.JumpIfTrue | day05/cpu.rs:183-211 | `jump_if_true` jumps on a non-zero condition |
| Day05Cpu.Cpu.JumpIfFalse | day05/cpu.rs:213-241 | `jump_if_false` jumps on a zero condition |
| Day05Cpu.Cpu.Exit | day05/cpu.rs:313-315 | `exit` sets `idx` to the memory's size and changes nothing else |
| Day05Cpu.Cpu.Dispatch | day05/cpu.rs:82 | the dispatcher runs the handler of the opcode, and an opcode with no handler panics |
| Day05Cpu.Cpu.ExecuteInstruction | day05/cpu.rs:53-83 | one instruction in place leaves the state `Step` defines, or its panic |
| Day05Cpu.Cpu.RunOne | day05/cpu.rs:48-50 | one pass of the loop continues the run being computed, with less fuel |
| Day05Cpu.Cpu.ExecuteInstructions | day05/cpu.rs:45-51 | the loop ends, runs out of fuel or panics exactly as the run function does, in the state it gives |
| Day05Cpu.Cpu.PrintInitialValue | day05/cpu.rs:317-319 | cell 0 is printed when present, and an absent cell 0 panics with nothing printed |
| Day07Cpu.Initial | src/day07/cpu.rs:39-52 | `initialise` starts at `idx` 0 with output 0, no inputs, the given console, nothing printed and printing on |
| Day07Cpu.StepFaults | src/day07/cpu.rs:66-75 | a missing `idx` panics with that key, and an opcode with no handler panics as invalid |
| Day07Cpu.ArithmeticStep | src/day07/cpu.rs:78-201 | the four arithmetic opcodes succeed exactly when their operands and target exist; they store the combined value and move on four cells |
| Day07Cpu.ArithmeticEffect | src/day07/cpu.rs:78-201 | the arithmetic function, seen from the first operand, needs exactly those cells and stores the combined value |
| Day07Cpu.InputIsLastInFirstOut | src/day07/cpu.rs:104-120 | with inputs queued, input stores the last of them, removes it and moves on two cells |
| Day07Cpu.InputFromConsole | src/day07/cpu.rs:104-120 | with no inputs queued, input takes the next console line, and panics when there is none; on success nothing else but the memory and the console changes |
| Day07Cpu.OutputOverwrites | src/day07/cpu.rs:122-132 | output overwrites the output value with its operand and leaves memory alone |
| Day07Cpu.JumpNotTaken | src/day07/cpu.rs:134-171 | a jump whose condition fails moves on three cells |
| Day07Cpu.JumpTaken | src/day07/cpu.rs:134-171 | a jump whose condition holds succeeds exactly when its target exists and lands on it |
| Day07Cpu.StepKeepsKeys | src/day07/cpu.rs:78-205 | no instruction adds or removes an address |
| Day07Cpu.RunKeepsKeys | src/day07/cpu.rs:54-60 | a run that did not panic ends with the addresses it started with |
| Day07Cpu.HaltEndsRun | src/day07/cpu.rs:203-205 | opcode 99 moves `idx` to the memory's size and the run stops there |
| Day07Cpu.Cpu.Initialise | src/day07/cpu.rs:39-52 | the new machine holds the initial state |
| Day07Cpu.Cpu.ReadParameter | src/day07/cpu.rs:223-234 | `private_read_parameter` yields the value `Fetch` defines at `idx`, or its panic, and moves on one cell |
| Day07Cpu.Cpu.StoreAt | src/day07/cpu.rs:118 | the store changes memory as `Store` defines, or panics |
| Day07Cpu.Cpu.BinaryOperation | src/day07/cpu.rs:78-201 | the shared arithmetic body leaves the state the arithmetic function defines, or its panic |
| Day07Cpu.Cpu.WriteResult | src/day07/cpu.rs:78-201 | the write that ends an arithmetic handler leaves the state the store function defines |
| Day07Cpu.Cpu.Add | src/day07/cpu.rs:78-89 | `add` leaves the state opcode 1 defines |
| Day07Cpu.Cpu.Multiply | src/day07/cpu.rs:91-102 | `multiply` leaves the state opcode 2 defines |
| Day07Cpu.Cpu.LessThan | src/day07/cpu.rs:173-186 | `less_than` leaves the state opcode 7 defines |
| Day07Cpu.Cpu.Equals | src/day07/cpu.rs:188-201 | `equals` leaves the state opcode 8 defines |
| Day07Cpu.Cpu.Read | src/day07/cpu.rs:104-120 | `read` leaves the state input defines, or panics |
| Day07Cpu.Cpu.Write | src/day07/cpu.rs:122-132 | `write` leaves the state output defines, or panics |
| Day07Cpu.Cpu.ConditionalJump | src/day07/cpu.rs:134-171 | the shared jump body leaves the state the jump function defines |
| Day07Cpu.Cpu.JumpIfTrue | src/day07/cpu.rs:134-151 | `jump_if_true` jumps on a non-zero condition |
| Day07Cpu.Cpu.JumpIfFalse | src/day07/cpu.rs:153-171 | `jump_if_false` jumps on a zero condition |
| Day07Cpu.Cpu.Exit | src/day07/cpu.rs:203-205 | `exit` sets `idx` to the memory's size and changes nothing else |
| Day07Cpu.Cpu.Dispatch | src/day07/cpu.rs:74 | the dispatcher runs the handler of the opcode, and an opcode with no handler panics |
| Day07Cpu.Cpu.ExecuteInstruction | src/day07/cpu.rs:66-75 | one instruction in place leaves the state `Step` defines, or its panic |
| Day07Cpu.Cpu.RunOne | src/day07/cpu.rs:57-59 | one pass of the loop continues the run being computed, with less fuel |
| Day07Cpu.Cpu.ExecuteInstructions | src/day07/cpu.rs:54-60 | the loop ends, runs out of fuel or panics exactly as the run function does, in the state it gives |
| Day07Cpu.Cpu.PrintInitialValue | src/day07/cpu.rs:207-209 | cell 0 is printed when present, and an absent cell 0 panics with nothing printed |
| Day07Cpu.Cpu.GetOutputValue | src/day07/cpu.rs:211-213 | `get_output_value` answers the last value written and leaves it in place |
| Day07Cpu.Cpu.SetInputs | src/day07/cpu.rs:215-217 | `set_inputs` replaces the input queue and nothing else |
| Day07Cpu.Cpu.DisplayStdOut | src/day07/cpu.rs:219-221 | `display_std_out` sets the printing flag and nothing else |
| Day09Cpu.Initial | src/day09/cpu.rs:48-62 | `initialise` starts at `idx` 0 and relative base 0, with no pending output, no inputs, the given console, nothing printed, printing on, not pausing and not finished |
| Day09Cpu.StepFaults | src/day09/cpu.rs:74-84 | a missing `idx` panics with that key, and an opcode with no handler panics as invalid |
| Day09Cpu.ArithmeticStep | src/day09/cpu.rs:87-175 | the four arithmetic opcodes always succeed, store the combined value at the target, move on four cells and change nothing but the core |
| Day09Cpu.JumpNotTaken | src/day09/cpu.rs:133-153 | a jump whose condition fails moves on three cells and changes nothing but the core |
| Day09Cpu.JumpTaken | src/day09/cpu.rs:133-153 | a jump whose condition holds succeeds exactly when its target cells exist and lands on the target |
| Day09Cpu.InputIsLastInFirstOut | src/day09/cpu.rs:107-121 | with inputs queued, input stores the last of them at the target, removes it and moves on two cells; nothing else but the memory changes |
| Day09Cpu.InputFromConsole | src/day09/cpu.rs:107-121 | with no inputs queued, input takes the next console line, and panics when there is none |
| Day09Cpu.OutputFillsSlot | src/day09/cpu.rs:123-131 | output fills the pending-output slot with its operand, moves on two cells and prints only when printing is on |
| Day09Cpu.OnlyNineMovesRelativeBase | src/day09/cpu.rs:177-180 | every instruction other than opcode 9 keeps the relative base |
| Day09Cpu.FinishedIsSticky | src/day09/cpu.rs:182-184 | opcode 99 sets `finished`, and no instruction clears it |
| Day09Cpu.StepKeepsFlags | src/day09/cpu.rs:74-184 | no instruction changes the pause or printing flags |
| Day09Cpu.RunKeepsFlags | src/day09/cpu.rs:64-68 | a run keeps both flags and never clears `finished` |
| Day09Cpu.Cpu.Initialise | src/day09/cpu.rs:48-62 | the new machine holds the initial state |
| Day09Cpu.Cpu.CheckMemory | src/day09/cpu.rs:234-245 | `private_check_memory` in place answers and leaves what the core function gives |
| Day09Cpu.Cpu.ReadParameter | src/day09/cpu.rs:204-216 | `private_read_parameter` in place answers and leaves what the core function gives |
| Day09Cpu.Cpu.WriteParameter | src/day09/cpu.rs:247-257 | `private_write_parameter` in place leaves what the core function gives |
| Day09Cpu.Cpu.GetIndex | src/day09/cpu.rs:218-232 | `private_get_index` in place leaves what the core function gives, or its panic |
| Day09Cpu.Cpu.Add | src/day09/cpu.rs:87-95 | `add` leaves the core the core `Add` defines |
| Day09Cpu.Cpu.Multiply | src/day09/cpu.rs:97-105 | `multiply` leaves the core the core `Multiply` defines |
| Day09Cpu.Cpu.Read | src/day09/cpu.rs:107-121 | `read` leaves the state opcode 3 defines, or its panic |
| Day09Cpu.Cpu.Write | src/day09/cpu.rs:123-131 | `write` leaves the state opcode 4 defines |
| Day09Cpu.Cpu.JumpIfTrue | src/day09/cpu.rs:133-142 | `jump_if_true` leaves the core the core jump defines, or its panic |
| Day09Cpu.Cpu.JumpIfFalse | src/day09/cpu.rs:144-153 | `jump_if_false` leaves the core the core jump defines, or its panic |
| Day09Cpu.Cpu.LessThan | src/day09/cpu.rs:155-164 | `less_than` leaves the core the core `LessThan` defines |
| Day09Cpu.Cpu.Equals | src/day09/cpu.rs:166-175 | `equals` leaves the core the core `Equals` defines |
| Day09Cpu.Cpu.AddRelativeOffset | src/day09/cpu.rs:177-180 | `add_relative_offset` leaves the core the core function defines |
| Day09Cpu.Cpu.Exit | src/day09/cpu.rs:182-184 | `exit` sets `finished` and nothing else |
| Day09Cpu.Cpu.Dispatch | src/day09/cpu.rs:83 | the dispatcher runs the handler of the opcode, and an opcode with no handler panics |
| Day09Cpu.Cpu.ExecuteInstruction | src/day09/cpu.rs:74-84 | one instruction in place leaves the state `Step` defines, or its panic |
| Day09Cpu.Cpu.RunOne | src/day09/cpu.rs:65-67 | one pass of the loop continues the run being computed, with less fuel |
| Day09Cpu.Cpu.ExecuteInstructions | src/day09/cpu.rs:64-68 | the loop stops, runs out of fuel or panics exactly as the run function does, in the state it gives |
| Day09Cpu.Cpu.PrintInitialValue | src/day09/cpu.rs:186-188 | cell 0 is printed when present, and an absent cell 0 panics with nothing printed |
| Day09Cpu.Cpu.GetOutputValue | src/day09/cpu.rs:190-194 | `get_output_value` answers the pending output and empties the slot, changing nothing else; with the slot empty it panics with `NoOutput` and changes nothing |
| Day09Cpu.Cpu.SetInputs | src/day09/cpu.rs:196-198 | `set_inputs` replaces the input queue and nothing else |
| Day09Cpu.Cpu.DisplayStdOut | src/day09/cpu.rs:200-202 | `display_std_out` sets the printing flag and nothing else |
| Day09Cpu.Cpu.PauseExecutionOnOutput | src/day09/cpu.rs:259-261 | `pause_execution_on_output` sets the pause flag and nothing else |
| Day09Cpu.Cpu.HasFinished | src/day09/cpu.rs:263-265 | `has_finished` answers the finished flag |
| Day23Cpu.Initial | src/day23/cpu.rs:87-106 | `initialise` starts at `idx` 0 and base 0, with nothing pending or counted, not finished, not pausing, no inputs, printing on, no previous instruction, wired to the given endpoints |
| Day23Cpu.StepBookkeeping | src/day23/cpu.rs:118-130 | every instruction records its opcode, counts one output exactly for opcode 4, never clears `finished` and keeps the inputs, flags and consumer |
| Day23Cpu.StepKeepsEndpoints | src/day23/cpu.rs:145-228 | instructions other than input and output touch neither the queues nor the producer |
| Day23Cpu.InputStep | src/day23/cpu.rs:165-168 | input always succeeds and stores what the consumer hands over, and the queues change as the consumer says |
| Day23Cpu.OutputStep | src/day23/cpu.rs:170-175 | output succeeds exactly when the producer accepts the value; it fills the slot, updates the producer and queues and moves on two cells |
| Day23Cpu.UntilOutputs | src/day23/cpu.rs:132-138 | `run_until_num_out` resets the output count whenever it stops |
| Day23Cpu.UntilOutputsIsExact | src/day23/cpu.rs:132-138 | a run to n outputs that starts with at most n counted stops with exactly n counted |
| Day23Cpu.Cpu.Initialise | src/day23/cpu.rs:87-106 | the new machine holds the initial state and the given producer |
| Day23Cpu.Cpu.CheckMemory | src/day23/cpu.rs:290-301 | `private_check_memory` in place answers and leaves what the core function gives |
| Day23Cpu.Cpu.ReadParameter | src/day23/cpu.rs:260-272 | `private_read_parameter` in place answers and leaves what the core function gives |
| Day23Cpu.Cpu.WriteParameter | src/day23/cpu.rs:303-313 | `private_write_parameter` in place leaves what the core function gives |
| Day23Cpu.Cpu.GetIndex | src/day23/cpu.rs:274-288 | `private_get_index` in place leaves what the core function gives, or its panic |
| Day23Cpu.Cpu.Add | src/day23/cpu.rs:145-153 | `add` leaves the core the core `Add` defines |
| Day23Cpu.Cpu.Multiply | src/day23/cpu.rs:155-163 | `multiply` leaves the core the core `Multiply` defines |
| Day23Cpu.Cpu.Read | src/day23/cpu.rs:165-168 | `read` stores the value the consumer hands over and leaves the queues as it does |
| Day23Cpu.Cpu.Write | src/day23/cpu.rs:170-175 | `write` leaves the state and queues opcode 4 defines, or the producer's panic |
| Day23Cpu.Cpu.JumpIfTrue | src/day23/cpu.rs:177-186 | `jump_if_true` leaves the core the core jump defines, or its panic |
| Day23Cpu.Cpu.JumpIfFalse | src/day23/cpu.rs:188-197 | `jump_if_false` leaves the core the core jump defines, or its panic |
| Day23Cpu.Cpu.LessThan | src/day23/cpu.rs:199-208 | `less_than` leaves the core the core `LessThan` defines |
| Day23Cpu.Cpu.Equals | src/day23/cpu.rs:210-219 | `equals` leaves the core the core `Equals` defines |
| Day23Cpu.Cpu.AddRelativeOffset | src/day23/cpu.rs:221-224 | `add_relative_offset` leaves the core the core function defines |
| Day23Cpu.Cpu.Exit | src/day23/cpu.rs:226-228 | `exit` sets `finished` |
| Day23Cpu.Cpu.Dispatch | src/day23/cpu.rs:129 | the dispatcher runs the handler of the opcode, and an opcode with no handler panics |
| Day23Cpu.Cpu.Arithmetic | src/day23/cpu.rs:145-219 | the four arithmetic handlers leave the state they define and never touch the queues |
| Day23Cpu.Cpu.Control | src/day23/cpu.rs:177-228 | the jump, relative-base and halt handlers leave the state they define, and an unknown opcode panics |
| Day23Cpu.Cpu.ExecuteInstruction | src/day23/cpu.rs:118-130 | one instruction in place leaves the machine and queues `Step` defines, or its panic |
| Day23Cpu.Cpu.RunOne | src/day23/cpu.rs:109-111 | one pass of either run loop continues the run being computed, with less fuel |
| Day23Cpu.Cpu.ExecuteInstructions | src/day23/cpu.rs:108-112 | the loop stops, runs out of fuel or panics exactly as the run function does |
| Day23Cpu.Cpu.RunUntilNumOut | src/day23/cpu.rs:132-138 | `run_until_num_out` ends as `UntilOutputs` does, with the count reset |
| Day23Cpu.Cpu.GetPreviousInstruction | src/day23/cpu.rs:140-142 | `get_previous_instruction` answers the last opcode executed |
| Day23Cpu.Cpu.PrintInitialValue | src/day23/cpu.rs:230-232 | the printed value is cell 0 when present, and an absent cell 0 panics |
| Day23Cpu.Cpu.GetOutputValue | src/day23/cpu.rs:234-238 | `get_output_value` answers the pending output and empties the slot, changing nothing else; with the slot empty it panics with `NoOutput` and changes nothing |
| Day23Cpu.Cpu.HasValue | src/day23/cpu.rs:240-242 | `has_value` answers whether an output is pending |
| Day23Cpu.Cpu.SetInputs | src/day23/cpu.rs:244-246 | `set_inputs` replaces the stored inputs |
| Day23Cpu.Cpu.SetInputsConsumer | src/day23/cpu.rs:248-250 | `set_inputs_consumer` replaces the consumer and nothing else |
| Day23Cpu.Cpu.SetOutputsProducer | src/day23/cpu.rs:252-254 | `set_outputs_producer` replaces the producer and nothing else |
| Day23Cpu.Cpu.DisplayStdOut | src/day23/cpu.rs:256-258 | `display_std_out` sets the printing flag |
| Day23Cpu.Cpu.PauseExecutionOnOutput | src/day23/cpu.rs:315-317 | `pause_execution_on_output` sets the pause flag |
| Day23Cpu.Cpu.HasFinished | src/day23/cpu.rs:319-321 | `has_finished` answers the finished flag |
| Day23Endpoints.Enqueued | src/day23/challenge.rs:49 | a send appends the value to its queue, when the queue exists, and changes no other queue |
| Day23Endpoints.Dequeued | src/day23/challenge.rs:46 | `try_recv` succeeds exactly on a non-empty queue, takes its front and changes no other queue |
| Day23Endpoints.Bus.constructor | src/day23/challenge.rs:205-221 | the bus holds the given queues |
| Day23Endpoints.Bus.Send | src/day23/challenge.rs:49 | a send in place leaves the queues `Enqueued` gives |
| Day23Endpoints.Bus.TryRecv | src/day23/challenge.rs:46 | a receive in place answers and leaves what `Dequeued` gives |
| Day23Endpoints.ConnectConsumer.GetValue | src/day23/challenge.rs:45-53 | `get_value` answers and leaves what `Receive` gives |
| Day23Endpoints.Receive | src/day23/challenge.rs:45-53 | the consumer hands over the front of its queue, or -1 when the queue is empty |
| Day23Endpoints.ReceiveEffect | src/day23/challenge.rs:45-53 | an empty queue reports -1 to the NAT; a -1 received is also reported; any other value is taken without a report |
| Day23Endpoints.Flush | src/day23/challenge.rs:98-101 | flushing keeps the number of queues |
| Day23Endpoints.FlushDelivers | src/day23/challenge.rs:98-101 | flushing delivers the whole cache, in order, to the destination and to the NAT, and touches no other queue |
| Day23Endpoints.PacketIsRouted | src/day23/challenge.rs:77-103 | a packet for a computer reaches its queue as x then y, the NAT receives dest, x, y, nothing else changes and the producer is back between packets |
| Day23Endpoints.PacketToNowhere | src/day23/challenge.rs:93-99 | a packet for an address no computer has panics on `senders[dest]` |
| Day23Endpoints.PacketForNat | src/day23/challenge.rs:86-92 | a packet for 255 goes to the NAT alone as 255, x, y, and the producer keeps 255 as its destination without resetting its count |
| Day23Endpoints.ConnectProducer.Initialise | src/day23/challenge.rs:65-73 | the new producer is between packets with an empty cache |
| Day23Endpoints.ConnectProducer.LoadValue | src/day23/challenge.rs:77-103 | `load_value` in place leaves the producer and queues `Load` defines, or its panic |
| Day23Network.Drain | src/day23/challenge.rs:162-180 | draining the NAT's queue never changes which queues the NAT reads and writes |
| Day23Network.CheckedNat | src/day23/challenge.rs:161-188 | `check_nat` succeeds exactly when draining does; it keeps the number of queues, empties the NAT's queue and leaves the idle count within the limit |
| Day23Network.NatResends | src/day23/challenge.rs:182-187 | past the idle limit the kept packet is sent as x, y and the count is reset; otherwise nothing is sent |
| Day23Network.DrainSucceeds | src/day23/challenge.rs:162-180 | the NAT drains its queue without panicking exactly when the queue holds whole reports |
| Day23Network.ReportsAppend | src/day23/challenge.rs:162-180 | reports followed by reports are reports |
| Day23Network.DrainAppend | src/day23/challenge.rs:162-180 | draining two stretches of whole reports is draining one after the other |
| Day23Network.LastPacketDecides | src/day23/challenge.rs:165-179 | a last packet for 255 is the one the NAT keeps, and a last packet for a computer clears the idle count, while a last packet for 255 leaves the count as the reports before it left it |
| Day23Network.IdleReportsCount | src/day23/challenge.rs:163-164 | k idle reports in a row raise the idle count by k and change nothing else |
| Day23Network.LoadKeepsReports | src/day23/challenge.rs:77-103 | a producer wired to a NAT queue of whole reports keeps it so, and keeps its wiring |
| Day23Network.ReportToNat | src/day23/challenge.rs:90-92 | a packet for 255 lands in the NAT's queue as one report |
| Day23Network.ReportRouted | src/day23/challenge.rs:96-101 | a packet for a computer is copied to the NAT's queue as one report |
| Day23Network.StepKeepsWiring | src/day23/cpu.rs:118-130 | every instruction of a wired computer keeps it wired and keeps whole reports in the NAT's queue |
| Day23Network.UntilOutputsKeepsWiring | src/day23/cpu.rs:132-138 | `run_until_num_out` keeps a computer wired |
| Day23Network.TurnKeepsWiring | src/day23/challenge.rs:117-123 | a computer's turn keeps it wired |
| Day23Network.Turns | src/day23/challenge.rs:117-123 | a round of turns gives back one machine per computer |
| Day23Network.TurnsAdvance | src/day23/challenge.rs:117-123 | taking turn i moves its computer from the turns left to the turns taken, or ends the round in its panic |
| Day23Network.TurnsFromStart | src/day23/challenge.rs:117 | the round from the first computer is the whole round |
| Day23Network.TurnsAtEnd | src/day23/challenge.rs:117-123 | after the last computer, the round has taken every turn |
| Day23Network.TurnsKeepWiring | src/day23/challenge.rs:117-123 | a round keeps every computer wired and the NAT's queue whole |
| Day23Network.Loop | src/day23/challenge.rs:116-134 | a pass gives back one machine per computer and answers true exactly when every computer has halted |
| Day23Network.LoopKeepsWiring | src/day23/challenge.rs:116-134 | a wired network stays wired pass after pass, and its NAT never panics: a failing pass failed in a computer's turn |
| Day23Network.InitialChannels | src/day23/challenge.rs:205-221 | the network starts with 51 queues |
| Day23Network.InitialNetworkIsWired | src/day23/challenge.rs:198-236 | the network `initialise_network` builds is wired |
| Day23Network.Nat.Initialise | src/day23/challenge.rs:151-159 | the new NAT holds no packet and no idle count |
| Day23Network.Nat.ReadReport | src/day23/challenge.rs:162-179 | one pass of the drain loop reads one report, or stops on an empty queue, or panics on a cut-short packet; draining goes on from the new state as from the old |
| Day23Network.Nat.DrainQueue | src/day23/challenge.rs:162-180 | the drain loop leaves the NAT and queues `Drain` defines, or its panic |
| Day23Network.Nat.CheckNat | src/day23/challenge.rs:161-188 | `check_nat` in place leaves what `CheckedNat` gives, or its panic |
| Day23Network.TakeTurn | src/day23/challenge.rs:118-122 | a computer's turn in place leaves what `Turn` gives, its panic, or a fuel fault |
| Day23Network.Network.Models | src/day23/challenge.rs:106-108 | the network's state is one machine per computer, in address order |
| Day23Network.Network.constructor | src/day23/challenge.rs:233-235 | the network holds the given computers |
| Day23Network.Network.TakeTurnOf | src/day23/challenge.rs:117-123 | the turn of computer i leaves what `Turn` gives and changes no other computer |
| Day23Network.Network.TurnStep | src/day23/challenge.rs:117-123 | one turn carries the round's bookkeeping one computer on, or ends the round in its panic |
| Day23Network.Network.TakeTurns | src/day23/challenge.rs:117-123 | the first loop of `execute_loop` leaves what `Turns` gives, or its panic |
| Day23Network.Network.RoundStarts | src/day23/challenge.rs:117 | before the first turn the whole round is ahead |
| Day23Network.Network.RoundEnds | src/day23/challenge.rs:117-123 | after the last turn the computers hold what the round computed |
| Day23Network.Network.AllFinished | src/day23/challenge.rs:127-133 | the last loop answers true exactly when every computer has halted |
| Day23Network.Network.TurnsThenNat | src/day23/challenge.rs:116-125 | a round then `check_nat` leaves what `Loop` gives, or its panic |
| Day23Network.Network.ExecuteLoop | src/day23/challenge.rs:116-134 | `execute_loop` leaves and answers what `Loop` gives, or its panic |
| Day23Network.WireComputers | src/day23/challenge.rs:209-221 | the first loop builds queue i holding i, sender i and consumer i for each of the 50 computers |
| Day23Network.BootComputer | src/day23/challenge.rs:225-229 | one computer is new, has a new producer and is booted set to pause on output |
| Day23Network.BootComputers | src/day23/challenge.rs:224-231 | the second loop builds 50 distinct new computers with distinct producers, computer i booted for address i |
| Day23Network.Assemble | src/day23/challenge.rs:200-235 | the network is built from new objects, is valid and holds the initial queues, computers and NAT |
| Day23Network.InitialiseNetwork | src/day23/challenge.rs:198-236 | `initialise_network` succeeds exactly when the program parses, panics as malformed otherwise, and builds the initial network |
| ProgramText.Split | src/day23/challenge.rs:192 | `split(",")` gives at least one field, none holding a comma |
| ProgramText.SplitThenJoin | src/day23/challenge.rs:192 | joining the fields gives the text back |
| ProgramText.SplitAfterField | src/day23/challenge.rs:192 | a field without a comma, followed by a comma, splits off as one field |
| ProgramText.SplitWithoutComma | src/day23/challenge.rs:192 | a text without a comma is one field |
| ProgramText.JoinThenSplit | src/day23/challenge.rs:192 | joining comma-free fields and splitting again gives the fields back |
| ProgramText.ParseI64 | src/day23/challenge.rs:194 | a parsed value always fits in `i64` |
| ProgramText.ParseFields | src/day23/challenge.rs:193-195 | every field parses to its value, or some field does not parse |
| ProgramText.ProcessInput | src/day23/challenge.rs:191-196 | the only way `process_input` fails is a malformed program |
| ProgramText.ShowNat | src/day23/challenge.rs:194 | a natural number is written as one digit or more |
| ProgramText.Show | src/day23/challenge.rs:194 | a number is written as a non-empty text without a comma |
| ProgramText.ShowNatValue | src/day23/challenge.rs:194 | reading the digits of a number gives the number back |
| ProgramText.ParseShow | src/day23/challenge.rs:194 | parsing a written `i64` gives it back |
| ProgramText.ProcessRendered | src/day23/challenge.rs:191-196 | reading a written non-empty program gives the memory holding it, value i in cell i |
| ProgramText.ParseFieldsExact | src/day23/challenge.rs:193-195 | fields that each parse to their value parse to the whole list |
| ProgramText.TrailingJunkIsMalformed | src/day23/challenge.rs:191-196 | a text whose last character is not a digit, such as a final newline, does not parse |
| ProgramText.LastFieldIsSuffix | src/day23/challenge.rs:192 | the last field is what follows the last comma |

## Left out

- Integer overflow: `i64` addition, multiplication and relative-base updates, the `u64` arithmetic of day 2, and `idx += 1` on `usize` are all modelled on unbounded integers. The Rust program panics on overflow in debug builds and wraps in release builds; neither is modelled. The `as usize` and `as i64` casts are modelled exactly.
- Console input: the "Enter a value" prompt, flushing and reading a line are not modelled. The console is a sequence of the integers its lines would hold, read from the front. A line that does not parse as an integer is not modelled, and neither is a failed read; an exhausted console is the `InputExhausted` fault.
- Console output: `println!` is modelled as appending the value to a `stdout` log. Day 23 has no log, so its `print_initial_value` returns the value. The NAT's two `println!` calls are not modelled.
- The dispatcher `HashMap` of function pointers is modelled as a `match` on the opcode. A missing entry is the `InvalidOpcode` fault.
- The run loops `execute_instructions` and `run_until_num_out` may never end, so they take a `fuel` bound. When the bound is reached they report `Unfinished`, or `FuelExhausted` inside a network turn. A run that does end is described exactly once the fuel is large enough (`MoreFuel`).
- The generic `CPU<T, U>` of day 23, the `Consumer` and `Producer` traits, and `StandardConsumer` and `StandardProducer` are not modelled. The CPU is modelled at its one networked instantiation, `CPU<ConnectConsumer, ConnectProducer>`. The standard endpoints only read and print through the console.
- Channels: the capacity of 1000 of `sync_channel` and a blocking `send` are not modelled; sends never block or fail. The unused channel created at src/day23/challenge.rs:205 and then replaced is not modelled.
- `initialise_network` returns `Option<NAT>`, which is always `Some`; the model returns the NAT itself.
- The day drivers are not modelled: the `part_one` and `part_two` functions of days 7, 9 and 23, the day 2 search over nouns and verbs, and `main.rs`. Neither is day 2's `process_input`, which day 23's mirrors for `u64`.
- `set_inputs` on day 23 stores values that no instruction reads; it is modelled as stored and unused.
- The day 7 driver calls `pause_execution_on_output`, which src/day07/cpu.rs does not define. The day 7 machine is modelled as that file defines it, without a pause flag.
- `read_digit` takes a `u32` place and `i64::pow`; only places 3 to 5 are used, and these are modelled exactly.
