/**
 * `process_opcodes` of day 2, the first Intcode interpreter: unsigned
 * cells, only opcodes 1 (add) and 99 (halt) recognised, every other opcode
 * multiplying, every operand an address, and a memory whose addresses
 * never change. It answers with the final value of cell 0.
 */
module Day02Intcode {
  import opened IntcodeCommon

  /** The `u64` cells of the program, keyed by address. */
  type Opcodes = map<nat, nat>

  /** The loop's variables: the memory, `idx`, and `size`, which is fixed on entry. */
  datatype State = State(opcodes: Opcodes, idx: nat, size: nat)

  function Start(opcodes: Opcodes): State {
    State(opcodes, 0, |opcodes|)
  }

  /** Operand k (0 is the first) of the instruction at `idx`: always the cell whose address it holds. */
  function Operand(s: State, k: nat): Result<nat> {
    var pos :- Cell(s.opcodes, s.idx + 1 + k);
    Cell(s.opcodes, pos)
  }

  /** One pass of the loop body. */
  function Step(s: State): (r: Result<State>)
    ensures r.Success? ==> r.value.size == s.size
    ensures r.Success? && s.idx < s.size ==> r.value.idx > s.idx
  {
    var opcode :- Cell(s.opcodes, s.idx);
    if opcode == 99 then Success(s.(idx := s.size + 1))
    else
      var val :- Operand(s, 0);
      var val2 :- Operand(s, 1);
      var output := if opcode == 1 then val + val2 else val * val2;
      var outputSave :- Cell(s.opcodes, s.idx + 3);
      var opcodes :- Store(s.opcodes, outputSave, output);
      Success(s.(opcodes := opcodes, idx := s.idx + 4))
  }

  /** The `while idx < size` loop. Every pass moves `idx` forward, so it always ends. */
  function Loop(s: State): Result<State>
    decreases s.size - s.idx
  {
    if s.idx >= s.size then Success(s)
    else
      var next :- Step(s);
      Loop(next)
  }

  /** `process_opcodes`: run the loop from address 0, then read cell 0. */
  function Processed(opcodes: Opcodes): Result<nat> {
    var final :- Loop(Start(opcodes));
    Cell(final.opcodes, 0)
  }

  /** Opcode 99 sets `idx` to `size`, and the step that follows makes it `size + 1`: the loop ends there. */
  lemma HaltEndsLoop(s: State)
    requires s.idx < s.size && s.idx in s.opcodes && s.opcodes[s.idx] == 99
    ensures Step(s) == Success(s.(idx := s.size + 1))
    ensures Loop(s) == Success(s.(idx := s.size + 1))
  {
  }

  /**
   * Any other instruction reads two operands, always as addresses, stores
   * their sum when the opcode is 1 and their product for every other
   * opcode at the address held in the fourth cell, and moves on four cells.
   */
  lemma InstructionEffect(s: State)
    requires s.idx in s.opcodes && s.opcodes[s.idx] != 99
    ensures Step(s).Success? <==>
      Operand(s, 0).Success? && Operand(s, 1).Success? && s.idx + 3 in s.opcodes && s.opcodes[s.idx + 3] in s.opcodes
    ensures Step(s).Success? ==>
      var a, b := Operand(s, 0).value, Operand(s, 1).value;
      Step(s).value == s.(idx := s.idx + 4,
                          opcodes := s.opcodes[s.opcodes[s.idx + 3] := if s.opcodes[s.idx] == 1 then a + b else a * b])
  {
  }

  /** No pass of the loop adds or removes an address. */
  lemma StepKeepsKeys(s: State)
    requires Step(s).Success?
    ensures Step(s).value.opcodes.Keys == s.opcodes.Keys
  {
  }

  /** The memory the loop ends on has exactly the addresses it started with. */
  lemma {:induction false} LoopKeepsKeys(s: State)
    requires Loop(s).Success?
    ensures Loop(s).value.opcodes.Keys == s.opcodes.Keys
    ensures Loop(s).value.size == s.size && Loop(s).value.idx >= s.size
    decreases s.size - s.idx
  {
    if s.idx < s.size {
      StepKeepsKeys(s);
      LoopKeepsKeys(Step(s).value);
    }
  }

  /** A program that has cell 0 answers with the final value of that cell whenever the loop completes. */
  lemma ProcessedIsCellZero(opcodes: Opcodes)
    requires 0 in opcodes && Loop(Start(opcodes)).Success?
    ensures Processed(opcodes).Success?
    ensures Processed(opcodes) == Cell(Loop(Start(opcodes)).value.opcodes, 0)
  {
    LoopKeepsKeys(Start(opcodes));
  }

  /** A program of n values has n addresses. */
  lemma {:induction false} ProgramSize(values: seq<nat>)
    ensures |MapOf<nat>(values)| == |values|
  {
    if values != [] {
      var init := values[..|values| - 1];
      ProgramSize(init);
      assert MapOf<nat>(values) == MapOf<nat>(init)[|init| := values[|init|]];
    }
  }

  /** `1,0,0,0,99` adds cell 0 to itself: it ends as `2,0,0,0,99` and answers 2. */
  lemma FirstExample()
    ensures Loop(Start(MapOf<nat>([1, 0, 0, 0, 99]))) == Success(State(MapOf<nat>([2, 0, 0, 0, 99]), 6, 5))
    ensures Processed(MapOf<nat>([1, 0, 0, 0, 99])) == Success(2)
  {
    var p := MapOf<nat>([1, 0, 0, 0, 99]);
    ProgramSize([1, 0, 0, 0, 99]);
    var s1 := State(MapOf<nat>([2, 0, 0, 0, 99]), 4, 5);
    assert Step(Start(p)) == Success(s1) by {
      assert p[0] == 1 && p[1] == 0 && p[2] == 0 && p[3] == 0;
      assert p[0 := 2] == MapOf<nat>([2, 0, 0, 0, 99]);
    }
    HaltEndsLoop(s1);
  }

  /** The second worked example, `1,9,10,3,2,3,11,0,99,30,40,50`. */
  const SECOND: seq<nat> := [1, 9, 10, 3, 2, 3, 11, 0, 99, 30, 40, 50]

  /** Its first instruction stores 30 + 40 at address 3. */
  lemma SecondExampleAdds()
    ensures Step(Start(MapOf<nat>(SECOND))) == Success(State(MapOf<nat>(SECOND)[3 := 70], 4, 12))
  {
    var p := MapOf<nat>(SECOND);
    ProgramSize(SECOND);
    assert p[0] == 1 && p[1] == 9 && p[2] == 10 && p[3] == 3 && p[9] == 30 && p[10] == 40;
    assert Operand(Start(p), 0) == Success(30);
    assert Operand(Start(p), 1) == Success(40);
  }

  /** Its second instruction stores 70 * 50 at address 0. */
  lemma SecondExampleMultiplies()
    ensures Step(State(MapOf<nat>(SECOND)[3 := 70], 4, 12)) == Success(State(MapOf<nat>(SECOND)[3 := 70][0 := 3500], 8, 12))
  {
    var p := MapOf<nat>(SECOND);
    var s := State(p[3 := 70], 4, 12);
    assert p[4] == 2 && p[5] == 3 && p[6] == 11 && p[7] == 0 && p[11] == 50;
    assert Operand(s, 0) == Success(70);
    assert Operand(s, 1) == Success(50);
  }

  /** The whole example computes (30 + 40) * 50 into cell 0 and answers 3500. */
  lemma SecondExample()
    ensures Processed(MapOf<nat>(SECOND)) == Success(3500)
  {
    var p := MapOf<nat>(SECOND);
    var s1 := State(p[3 := 70], 4, 12);
    var s2 := State(p[3 := 70][0 := 3500], 8, 12);
    SecondExampleAdds();
    SecondExampleMultiplies();
    assert p[8] == 99;
    HaltEndsLoop(s2);
    assert Loop(s1) == Loop(s2);
  }

  /** `process_opcodes`: the source's loop, one variable for each of its locals. */
  method ProcessOpcodes(input: Opcodes) returns (r: Result<nat>)
    ensures r == Processed(input)
  {
    var opcodes := input;
    var idx: nat := 0;
    var size := |opcodes|;
    while idx < size
      invariant Loop(State(opcodes, idx, size)) == Loop(Start(input))
      decreases size - idx
    {
      var next, fault := ProcessOne(State(opcodes, idx, size));
      if fault.Some? {
        return Failure(fault.value);
      }
      opcodes, idx := next.opcodes, next.idx;
    }
    if 0 !in opcodes {
      return Failure(MissingKey(0));
    }
    r := Success(opcodes[0]);
  }

  /** One pass of the loop body, on the loop's variables; `fault` is the panic that ends the program, if any. */
  method ProcessOne(s: State) returns (next: State, fault: Option<Fault>)
    requires s.idx < s.size
    ensures Yields(Step(s), fault, next)
    ensures fault.Some? ==> Loop(s) == Failure(fault.value)
    ensures fault.None? ==> Loop(s) == Loop(next)
  {
    var opcodes, idx, size := s.opcodes, s.idx, s.size;
    fault := None;
    if idx !in opcodes {
      return s, Some(MissingKey(idx));
    }
    var opcode := opcodes[idx];
    if opcode == 99 {
      idx := size;
    } else {
      idx := idx + 1;
      if idx !in opcodes {
        return s, Some(MissingKey(idx));
      }
      var pos := opcodes[idx];
      if pos !in opcodes {
        return s, Some(MissingKey(pos));
      }
      var val := opcodes[pos];
      idx := idx + 1;
      if idx !in opcodes {
        return s, Some(MissingKey(idx));
      }
      var pos2 := opcodes[idx];
      if pos2 !in opcodes {
        return s, Some(MissingKey(pos2));
      }
      var val2 := opcodes[pos2];
      var output: nat;
      if opcode == 1 {
        output := val + val2;
      } else {
        output := val * val2;
      }
      idx := idx + 1;
      if idx !in opcodes {
        return s, Some(MissingKey(idx));
      }
      var outputSave := opcodes[idx];
      if outputSave !in opcodes {
        return s, Some(MissingKey(outputSave));
      }
      opcodes := opcodes[outputSave := output];
    }
    idx := idx + 1;
    next := State(opcodes, idx, size);
  }
}
