/**
 * Vocabulary shared by every variant of the Intcode virtual machine:
 * optional values, results, the ways the machine faults, the Rust
 * integer casts the interpreter relies on, instruction decoding and the
 * zero-default view of a sparse memory.
 */
module IntcodeCommon {

  datatype Option<T> = None | Some(value: T)

  /** The outcome of an operation that can panic in the reference program. */
  datatype Result<T> = Success(value: T) | Failure(fault: Fault) {
    predicate IsFailure() { Failure? }
    function PropagateFailure<U>(): Result<U>
      requires Failure?
    {
      Failure(fault)
    }
    function Extract(): T
      requires Success?
    {
      value
    }
  }

  /** Each constructor stands for one way in which the reference program panics. */
  datatype Fault =
    | MissingKey(address: nat)    // `memory[&a]` or `memory.get_mut(&a).unwrap()` on an absent key
    | InvalidOpcode(opcode: int)  // the dispatcher holds no handler for the opcode
    | InputExhausted              // the console has no more lines for an input instruction
    | NoOutput                    // `out.unwrap()` on an empty pending-output slot
    | NoSuchChannel(index: nat)   // `senders[dest]` with `dest` out of bounds
    | EmptyChannel                // `try_recv().unwrap()` on an empty channel
    | MalformedProgram            // a program field that does not `parse()` as an integer
    | FuelExhausted               // not a panic: the bound the model puts on a loop the source leaves unbounded

  /** 2^64 and 2^63: the width of `usize`/`u64` and half of it. */
  const WORD: int := 0x1_0000_0000_0000_0000
  const HALF_WORD: int := 0x8000_0000_0000_0000

  /** Rust's `v as usize` for an `i64` on a 64-bit target: the two's complement bits read unsigned. */
  function AsUsize(v: int): (r: nat)
    ensures r < WORD
    ensures 0 <= v < WORD ==> r == v
    ensures -HALF_WORD <= v < 0 ==> r == v + WORD
  {
    v % WORD
  }

  /** Rust's `u as i64` for a `usize`: the bits read as a signed value. */
  function AsI64(u: nat): (r: int)
    ensures -HALF_WORD <= r < HALF_WORD
    ensures u < HALF_WORD ==> r == u
    ensures HALF_WORD <= u < WORD ==> r == u - WORD
  {
    var w := u % WORD;
    if w < HALF_WORD then w else w - WORD
  }

  predicate InI64(v: int) {
    -HALF_WORD <= v < HALF_WORD
  }

  /** Casting an `i64` to `usize` and back gives the value back. */
  lemma CastRoundTrip(v: int)
    requires InI64(v)
    ensures AsI64(AsUsize(v)) == v
  {
  }

  function Pow10(n: nat): (r: nat)
    ensures r >= 1
  {
    if n == 0 then 1 else 10 * Pow10(n - 1)
  }

  /** Rust's `/` and `%` on signed integers truncate toward zero. */
  function TruncDiv(a: int, b: nat): (q: int)
    requires b > 0
    ensures a >= 0 ==> 0 <= q == a / b
    ensures a < 0 ==> q <= 0
  {
    if a >= 0 then
      assert a / b >= 0;
      a / b
    else
      var n := -a;
      assert n / b >= 0;
      -(n / b)
  }

  function TruncRem(a: int, b: nat): (r: int)
    requires b > 0
    ensures a >= 0 ==> 0 <= r == a % b < b
    ensures a < 0 ==> 0 < r + b && r <= 0
  {
    if a >= 0 then a % b else -((-a) % b)
  }

  /**
   * `read_digit`: the decimal digit of `digit` at position `place`
   * (1 is the units digit). It always yields a value; for a negative
   * argument Rust's truncating arithmetic gives a digit in -9..0.
   */
  function ReadDigit(digit: int, place: nat): (r: Option<int>)
    requires place >= 1
    ensures r.Some?
    ensures -9 <= r.value <= 9
    ensures digit >= 0 ==> r.value == digit / Pow10(place - 1) % 10
    ensures digit < 0 ==> r.value <= 0
  {
    Some(TruncRem(TruncDiv(digit, Pow10(place - 1)), 10))
  }

  /** Division of n by m is q when n is q copies of m and a remainder below m. */
  lemma DivisionIsUnique(n: int, m: int, q: int, r: int)
    requires m > 0 && 0 <= r < m && n == m * q + r
    ensures n / m == q
  {
    var q0, r0 := n / m, n % m;
    assert m * (q - q0) == r0 - r;
    if q > q0 {
      MultipleIsLarge(m, q - q0);
    } else if q < q0 {
      MultipleIsLarge(m, q0 - q);
    }
  }

  /** A positive multiple of m is at least m. */
  lemma {:induction false} MultipleIsLarge(m: int, k: int)
    requires m > 0 && k >= 1
    ensures m * k >= m
    decreases k
  {
    if k > 1 {
      MultipleIsLarge(m, k - 1);
      assert m * k == m * (k - 1) + m;
    }
  }

  /**
   * Appending a units digit `u` to a non-negative word moves every digit
   * up one place: `place` of the shorter word is `place + 1` of the longer.
   */
  lemma ReadDigitShift(d: int, u: int, place: nat)
    requires d >= 0 && 0 <= u <= 9 && place >= 1
    ensures ReadDigit(d * 10 + u, place + 1) == ReadDigit(d, place)
    ensures ReadDigit(d * 10 + u, 1) == Some(u)
  {
    var n, p := d * 10 + u, Pow10(place - 1);
    var q, r := d / p, d % p;
    assert n == (10 * p) * q + (10 * r + u) by {
      assert d == p * q + r;
      assert (10 * p) * q == 10 * (p * q);
    }
    DivisionIsUnique(n, 10 * p, q, 10 * r + u);
    assert ReadDigit(n, place + 1).value == n / Pow10(place) % 10;
    DivisionIsUnique(n, 10, d, u);
    assert ReadDigit(n, 1).value == n / 1 % 10;
  }

  /**
   * Decoding of the instruction word as done by the day 7, 9 and 23
   * machines: `next_code = cell as usize`, the opcode is `next_code % 100`
   * and the mode of parameter k is `read_digit(next_code as i64, k + 2)`.
   */
  function DecodeOpcode(cell: int): (op: nat)
    ensures op < 100
    ensures 0 <= cell < WORD ==> op == cell % 100
  {
    AsUsize(cell) % 100
  }

  function DecodeMode(cell: int, k: nat): (mode: Option<int>)
    requires 1 <= k <= 3
    ensures mode.Some?
  {
    ReadDigit(AsI64(AsUsize(cell)), k + 2)
  }

  /**
   * For a non-negative instruction word the opcode is its two low decimal
   * digits and the mode of parameter k is the decimal digit k + 2; digits
   * the word does not have decode as 0 (position mode).
   */
  lemma {:induction false} DecodeDigits(cell: int, k: nat)
    requires 0 <= cell < HALF_WORD && 1 <= k <= 3
    ensures DecodeOpcode(cell) == cell % 100
    ensures DecodeMode(cell, k) == Some(cell / Pow10(k + 1) % 10)
    ensures 0 <= DecodeMode(cell, k).value <= 9
    ensures cell < Pow10(k + 1) ==> DecodeMode(cell, k) == Some(0)
  {
    CastRoundTrip(cell);
    assert DecodeMode(cell, k) == ReadDigit(cell, k + 2);
    if cell < Pow10(k + 1) {
      assert cell / Pow10(k + 1) == 0;
    }
  }

  /** Sparse memory: absent keys have never been touched. */
  type Memory = map<nat, int>

  /** The value a cell holds in the zero-default view of a sparse memory. */
  function Get(m: Memory, a: nat): int {
    if a in m then m[a] else 0
  }

  /** `m'` is `m` with some absent keys materialised as 0. */
  ghost predicate ZeroExtends(m: Memory, m': Memory) {
    && m.Keys <= m'.Keys
    && (forall a :: a in m ==> m'[a] == m[a])
    && (forall a :: a in m' && a !in m ==> m'[a] == 0)
  }

  /** Materialising absent cells as zero never changes what any read sees. */
  lemma ZeroExtensionKeepsView(m: Memory, m': Memory)
    requires ZeroExtends(m, m')
    ensures forall a :: Get(m', a) == Get(m, a)
  {
  }

  /** The value opcodes 1, 2, 7 and 8 compute from their operands. */
  function Combine(op: nat, a: int, b: int): int
    requires op in {1, 2, 7, 8}
  {
    match op
    case 1 => a + b
    case 2 => a * b
    case 7 => if a < b then 1 else 0
    case 8 => if a == b then 1 else 0
  }

  /**
   * A read in the fixed-memory variants (days 2, 5 and 7): `memory[&a]`
   * panics when the cell was never in the program.
   */
  function Cell<V>(m: map<nat, V>, a: nat): (r: Result<V>)
    ensures r.Success? <==> a in m
    ensures r.Success? ==> r.value == m[a]
    ensures r.Failure? ==> r.fault == MissingKey(a)
  {
    if a in m then Success(m[a]) else Failure(MissingKey(a))
  }

  /**
   * A write in the fixed-memory variants: `*memory.get_mut(&a).unwrap() = v`
   * replaces a cell that is there and panics on any other address, so the
   * set of addresses never changes.
   */
  function Store<V>(m: map<nat, V>, a: nat, v: V): (r: Result<map<nat, V>>)
    ensures r.Success? <==> a in m
    ensures r.Success? ==> r.value.Keys == m.Keys && r.value[a] == v
    ensures r.Success? ==> forall b :: b in m && b != a ==> r.value[b] == m[b]
    ensures r.Failure? ==> r.fault == MissingKey(a)
  {
    if a in m then Success(m[a := v]) else Failure(MissingKey(a))
  }

  /**
   * An operand of the fixed-memory variants held in cell `at`: in mode 1
   * the cell itself, in every other mode the cell whose address it holds.
   */
  function Fetch(m: Memory, at: nat, mode: Option<int>): (r: Result<int>)
    ensures mode == Some(1) ==> r == Cell(m, at)
    ensures mode != Some(1) ==> (r.Success? <==> at in m && AsUsize(m[at]) in m)
    ensures mode != Some(1) && r.Success? ==> r.value == m[AsUsize(m[at])]
  {
    match mode
    case Some(1) => Cell(m, at)
    case _ =>
      var pointer :- Cell(m, at);
      Cell(m, AsUsize(pointer))
  }

  /**
   * The value an input instruction of the day 7 and day 9 machines
   * consumes, with the queue and the console left after it: the LAST
   * element of the `set_inputs` queue (`Vec::pop`), or, once that is
   * empty, the next console line. With both exhausted it panics.
   */
  function TakeInput(inputs: seq<int>, stdin: seq<int>): (r: Result<(int, seq<int>, seq<int>)>)
    ensures r.Success? <==> |inputs| > 0 || |stdin| > 0
    ensures r.Failure? ==> r.fault == InputExhausted
    ensures r.Success? && |inputs| > 0 ==> r.value.1 + [r.value.0] == inputs && r.value.2 == stdin
    ensures r.Success? && |inputs| == 0 ==> [r.value.0] + r.value.2 == stdin && r.value.1 == []
  {
    if |inputs| > 0 then Success((inputs[|inputs| - 1], inputs[..|inputs| - 1], stdin))
    else if |stdin| > 0 then Success((stdin[0], inputs, stdin[1..]))
    else Failure(InputExhausted)
  }

  /** A method that reports a panic as `fault` ends with `now` as outcome `r` says. */
  predicate Yields<S(==)>(r: Result<S>, fault: Option<Fault>, now: S) {
    match r
    case Success(s) => fault.None? && now == s
    case Failure(f) => fault == Some(f)
  }

  /** The memory holding `program[i]` at address `i`. */
  function MapOf<V>(program: seq<V>): (m: map<nat, V>)
    ensures forall a: nat :: a in m <==> a < |program|
    ensures forall a :: 0 <= a < |program| ==> m[a] == program[a]
  {
    map a: nat | a < |program| :: program[a]
  }
}
