/**
 * `process_input` of day 23: the program text is a comma-separated list
 * of decimal `i64` values, and value i becomes memory cell i. Any field
 * that Rust's `str::parse::<i64>` refuses (an empty field, a space, a
 * newline, a value out of range) makes `unwrap` panic.
 */
module ProgramText {
  import opened IntcodeCommon

  /** `str::split(",")`: the fields between the commas, always at least one. */
  function Split(s: string): (r: seq<string>)
    ensures |r| >= 1
    ensures forall i :: 0 <= i < |r| ==> ',' !in r[i]
  {
    if s == [] then [[]]
    else
      var rest := Split(s[1..]);
      if s[0] == ',' then [[]] + rest
      else [[s[0]] + rest[0]] + rest[1..]
  }

  /** The fields put back together, one comma between each two. */
  function Join(fields: seq<string>): string {
    if fields == [] then []
    else if |fields| == 1 then fields[0]
    else fields[0] + [','] + Join(fields[1..])
  }

  lemma JoinCons(field: string, rest: seq<string>)
    requires |rest| >= 1
    ensures Join([field] + rest) == field + [','] + Join(rest)
  {
    assert ([field] + rest)[1..] == rest;
  }

  /** Splitting on commas loses nothing: joining the fields gives the text back. */
  lemma {:induction false} SplitThenJoin(s: string)
    ensures Join(Split(s)) == s
  {
    if s != [] {
      var rest := Split(s[1..]);
      SplitThenJoin(s[1..]);
      if s[0] == ',' {
        JoinCons([], rest);
      } else if |rest| == 1 {
        assert Split(s) == [[s[0]] + rest[0]];
      } else {
        calc {
          Join(Split(s));
          Join([[s[0]] + rest[0]] + rest[1..]);
          { JoinCons([s[0]] + rest[0], rest[1..]); }
          [s[0]] + rest[0] + [','] + Join(rest[1..]);
          { assert [rest[0]] + rest[1..] == rest; JoinCons(rest[0], rest[1..]); }
          [s[0]] + Join(rest);
        }
      }
    }
  }

  /** A field without a comma followed by a comma splits off as one field. */
  lemma {:induction false} SplitAfterField(field: string, tail: string)
    requires ',' !in field
    ensures Split(field + [','] + tail) == [field] + Split(tail)
    decreases |field|
  {
    if field == [] {
      assert field + [','] + tail == [','] + tail;
    } else {
      SplitAfterField(field[1..], tail);
      var rest := Split(field[1..] + [','] + tail);
      assert (field + [','] + tail)[1..] == field[1..] + [','] + tail;
      assert rest[0] == field[1..] && rest[1..] == Split(tail);
      assert [field[0]] + field[1..] == field;
    }
  }

  /** A text without a comma is one field. */
  lemma {:induction false} SplitWithoutComma(field: string)
    requires ',' !in field
    ensures Split(field) == [field]
    decreases |field|
  {
    if field != [] {
      SplitWithoutComma(field[1..]);
      assert [field[0]] + field[1..] == field;
    }
  }

  /** Joining fields that hold no comma and splitting again gives the fields back. */
  lemma {:induction false} JoinThenSplit(fields: seq<string>)
    requires |fields| >= 1
    requires forall i :: 0 <= i < |fields| ==> ',' !in fields[i]
    ensures Split(Join(fields)) == fields
  {
    if |fields| == 1 {
      SplitWithoutComma(fields[0]);
    } else {
      JoinThenSplit(fields[1..]);
      SplitAfterField(fields[0], Join(fields[1..]));
      assert [fields[0]] + fields[1..] == fields;
    }
  }

  predicate IsDigit(c: char) {
    '0' <= c <= '9'
  }

  predicate AllDigits(t: string) {
    forall i :: 0 <= i < |t| ==> IsDigit(t[i])
  }

  /** The value of a string of decimal digits, most significant first. */
  function DigitsValue(t: string): (v: nat)
    requires AllDigits(t)
  {
    if t == [] then 0 else DigitsValue(t[..|t| - 1]) * 10 + (t[|t| - 1] as int - '0' as int)
  }

  /**
   * `str::parse::<i64>`: an optional `+` or `-`, then one digit or more,
   * and a value that fits in 64 signed bits.
   */
  function ParseI64(s: string): (r: Option<int>)
    ensures r.Some? ==> InI64(r.value)
  {
    var signed := |s| > 0 && (s[0] == '-' || s[0] == '+');
    var digits := if signed then s[1..] else s;
    if digits == [] || !AllDigits(digits) then None
    else
      var magnitude: int := DigitsValue(digits);
      var v := if signed && s[0] == '-' then -magnitude else magnitude;
      if InI64(v) then Some(v) else None
  }

  /** Every field parsed, or nothing when one of them does not parse. */
  function ParseFields(fields: seq<string>): (r: Option<seq<int>>)
    ensures r.Some? ==> |r.value| == |fields|
    ensures r.Some? ==> forall i :: 0 <= i < |fields| ==> ParseI64(fields[i]) == Some(r.value[i])
    ensures r.None? ==> exists i :: 0 <= i < |fields| && ParseI64(fields[i]).None?
  {
    if fields == [] then Some([])
    else
      match (ParseI64(fields[0]), ParseFields(fields[1..]))
      case (Some(v), Some(vs)) => Some([v] + vs)
      case (None, _) => None
      case (_, None) =>
        var i :| 0 <= i < |fields[1..]| && ParseI64(fields[1..][i]).None?;
        assert ParseI64(fields[i + 1]).None?;
        None
  }

  /** `process_input` */
  function ProcessInput(input: string): (r: Result<Memory>)
    ensures r.Failure? ==> r.fault == MalformedProgram
  {
    match ParseFields(Split(input))
    case Some(values) => Success(MapOf(values))
    case None => Failure(MalformedProgram)
  }

  function DigitChar(d: nat): (c: char)
    requires d < 10
    ensures IsDigit(c) && c as int - '0' as int == d
  {
    ('0' as int + d) as char
  }

  /** The decimal digits of `n`, without leading zeros. */
  function ShowNat(n: nat): (t: string)
    ensures |t| >= 1 && AllDigits(t)
  {
    if n < 10 then [DigitChar(n)] else ShowNat(n / 10) + [DigitChar(n % 10)]
  }

  /** `n` written in decimal, with a `-` when it is negative. */
  function Show(n: int): (t: string)
    ensures |t| >= 1 && ',' !in t
  {
    if n < 0 then ['-'] + ShowNat(-n) else ShowNat(n)
  }

  /** A program written back as text. */
  function Render(program: seq<int>): (text: string) {
    Join(seq(|program|, i requires 0 <= i < |program| => Show(program[i])))
  }

  /** Reading the digits `ShowNat` writes gives the number back. */
  lemma {:induction false} ShowNatValue(n: nat)
    ensures DigitsValue(ShowNat(n)) == n
  {
    if n >= 10 {
      ShowNatValue(n / 10);
      var t := ShowNat(n);
      assert t[..|t| - 1] == ShowNat(n / 10);
    }
  }

  /** Parsing what `Show` writes gives the number back, for every `i64`. */
  lemma ParseShow(n: int)
    requires InI64(n)
    ensures ParseI64(Show(n)) == Some(n)
  {
    var t := Show(n);
    if n < 0 {
      ShowNatValue(-n);
      assert t[0] == '-' && t[1..] == ShowNat(-n);
    } else {
      ShowNatValue(n);
      assert IsDigit(t[0]);
    }
  }

  /**
   * Reading a rendered program gives the memory holding it: value i in
   * cell i. An empty program renders as the empty text, which does not
   * parse, so the program must hold a value.
   */
  lemma ProcessRendered(program: seq<int>)
    requires |program| >= 1
    requires forall i :: 0 <= i < |program| ==> InI64(program[i])
    ensures ProcessInput(Render(program)) == Success(MapOf(program))
  {
    var fields := seq(|program|, i requires 0 <= i < |program| => Show(program[i]));
    JoinThenSplit(fields);
    forall i | 0 <= i < |fields|
      ensures ParseI64(fields[i]) == Some(program[i])
    {
      ParseShow(program[i]);
    }
    ParseFieldsExact(fields, program);
  }

  lemma {:induction false} ParseFieldsExact(fields: seq<string>, values: seq<int>)
    requires |fields| == |values|
    requires forall i :: 0 <= i < |fields| ==> ParseI64(fields[i]) == Some(values[i])
    ensures ParseFields(fields) == Some(values)
  {
    if fields != [] {
      ParseFieldsExact(fields[1..], values[1..]);
      assert [values[0]] + values[1..] == values;
    }
  }

  /**
   * A text whose last character is a newline or any other non-digit
   * (a file saved with a final line break, say) does not parse.
   */
  lemma {:induction false} TrailingJunkIsMalformed(input: string)
    requires |input| >= 1 && !IsDigit(input[|input| - 1])
    ensures ProcessInput(input) == Failure(MalformedProgram)
  {
    var fields := Split(input);
    LastFieldIsSuffix(input);
    var last := fields[|fields| - 1];
    if input[|input| - 1] != ',' {
      var digits := if last[0] == '-' || last[0] == '+' then last[1..] else last;
      assert digits != [] ==> digits[|digits| - 1] == last[|last| - 1];
    }
    assert ParseI64(last).None?;
  }

  /** The last field is everything after the last comma: empty when the text ends in a comma, else ending as the text does. */
  lemma {:induction false} LastFieldIsSuffix(s: string)
    requires |s| >= 1
    ensures var last := Split(s)[|Split(s)| - 1];
      && (s[|s| - 1] == ',' ==> last == [])
      && (s[|s| - 1] != ',' ==> |last| >= 1 && last[|last| - 1] == s[|s| - 1])
    decreases |s|
  {
    var rest := Split(s[1..]);
    if |s| > 1 {
      LastFieldIsSuffix(s[1..]);
    }
  }
}
