/** Properties that relate several calls of the calculation engine: typing a
    number key by key, undoing a key, chaining operators, and the memory keys.
 */
module CalculatorProperties {
  import opened Numerics
  import opened Calculator

  /** The number keys the keypad offers: the ten digits and the decimal point. */
  predicate IsNumberKey(token: string)
  {
    |token| == 1 && ('0' <= token[0] <= '9' || token[0] == '.')
  }

  /** Number of decimal points in an operand. */
  function Points(text: string): nat
  {
    multiset(text)['.']
  }

  /** Pressing the keys of `tokens` in order. */
  function AppendAll(s: State, tokens: seq<string>): State
    decreases |tokens|
  {
    if tokens == [] then s else AppendAll(AppendNumber(s, tokens[0]), tokens[1..])
  }

  /** The keys of `tokens` written one after another. */
  function Concat(tokens: seq<string>): string
  {
    if tokens == [] then "" else tokens[0] + Concat(tokens[1..])
  }

  /** `entered` followed by `keys`, cut at the operand cap (an operand already
      at the cap stays as it is). */
  function Capped(entered: string, keys: string): string
  {
    if |entered| >= MaxLength then entered
    else if |entered| + |keys| <= MaxLength then entered + keys
    else (entered + keys)[..MaxLength]
  }

  /** A single key never brings a second decimal point into the operand. */
  lemma AppendKeepsOnePoint(s: State, token: string)
    requires |token| == 1 && Points(s.current) <= 1
    ensures Points(AppendNumber(s, token).current) <= 1
  {
  }

  /** Points of a concatenation add up. */
  lemma PointsAppend(x: string, y: string)
    ensures Points(x + y) == Points(x) + Points(y)
  {
    assert multiset(x + y) == multiset(x) + multiset(y);
  }

  /** A key on an operand below the cap, other than "0", is appended unless it
      is a second point. */
  lemma KeyIsAppended(s: State, key: string)
    requires IsNumberKey(key) && |s.current| < MaxLength && s.current != "0"
    requires key == "." ==> Points(s.current) == 0
    ensures AppendNumber(s, key).current == s.current + key
  {
    if key == "." {
      assert '.' !in multiset(s.current);
    }
  }

  /** Typing number keys that respect the one-point rule onto an operand
      other than "" and "0" writes them after it, up to the 12-character cap,
      and drops the rest. */
  lemma {:induction false} TypedDigitsAreCapped(s: State, tokens: seq<string>)
    requires forall i :: 0 <= i < |tokens| ==> IsNumberKey(tokens[i])
    requires Points(s.current) + Points(Concat(tokens)) <= 1
    requires s.current != "" && s.current != "0"
    ensures AppendAll(s, tokens).current == Capped(s.current, Concat(tokens))
    decreases |tokens|
  {
    if tokens != [] {
      var key, rest := tokens[0], tokens[1..];
      assert Concat(tokens) == key + Concat(rest);
      PointsAppend(key, Concat(rest));
      var s' := AppendNumber(s, key);
      if |s.current| < MaxLength {
        KeyIsAppended(s, key);
        PointsAppend(s.current, key);
        TypedDigitsAreCapped(s', rest);
        assert s.current + key + Concat(rest) == s.current + Concat(tokens);
      } else {
        TypedDigitsAreCapped(s', rest);
      }
    }
  }

  /** The first key typed on "" or "0": a point extends the operand, any
      other key replaces it. */
  lemma FirstKey(s: State, key: string)
    requires s.current == "" || s.current == "0"
    requires IsNumberKey(key) && key != "0"
    ensures Points(s.current) == 0
    ensures AppendNumber(s, key).current == (if key == "." then s.current else "") + key
  {
    assert multiset(s.current)['.'] == 0;
  }

  /** Typing a number from scratch: on the "0" of start-up or clear, or on the
      empty operand an operator key leaves, number keys with at most one point
      and not starting with 0 give exactly those keys, up to the 12-character
      cap; a leading digit replaces a "0", while a leading point extends it
      ("0" then "." gives "0.", "" then "." gives "."). */
  lemma TypedNumberFromScratch(s: State, tokens: seq<string>)
    requires s.current == "" || s.current == "0"
    requires forall i :: 0 <= i < |tokens| ==> IsNumberKey(tokens[i])
    requires Points(Concat(tokens)) <= 1
    requires |tokens| > 0 && tokens[0] != "0"
    ensures AppendAll(s, tokens).current == Capped(if tokens[0] == "." then s.current else "", Concat(tokens))
  {
    var key, rest := tokens[0], tokens[1..];
    var start := if key == "." then s.current else "";
    assert Concat(tokens) == key + Concat(rest);
    PointsAppend(key, Concat(rest));
    FirstKey(s, key);
    var s' := AppendNumber(s, key);
    PointsAppend(start, key);
    TypedDigitsAreCapped(s', rest);
    assert start + key + Concat(rest) == start + Concat(tokens);
  }

  /** The delete key takes back a number key that was accepted, unless the
      operand was empty or the key completed the error sentinel. */
  lemma DeleteUndoesAppend(s: State, token: string)
    requires |token| == 1 && s.current != ""
    requires AppendNumber(s, token) != s
    requires AppendNumber(s, token).current != ErrorText
    ensures Delete(AppendNumber(s, token)) == s
  {
  }

  /** Clearing and showing the error are idempotent and leave the memory alone. */
  lemma ClearAndErrorIdempotent(s: State)
    ensures Clear(Clear(s)) == Clear(s) && SameMemory(s, Clear(s))
    ensures ShowError(ShowError(s)) == ShowError(s) && SameMemory(s, ShowError(s))
  {
  }

  /** After an operator is chosen the operand is empty, so a second operator
      key in a row has no effect. */
  lemma SecondOperatorIgnored(a: Arith, s: State, op1: string, op2: string)
    ensures ChooseOperation(a, ChooseOperation(a, s, op1), op2) == ChooseOperation(a, s, op1)
  {
  }

  /** Choosing an operator while a step is pending evaluates that step first:
      its formatted value becomes the left operand of the new operator. */
  lemma ChainedEvaluation(a: Arith, s: State, op: string)
    requires s.operation.Some? && s.operation.value in BinaryOps
    requires a.parse(s.previous).Num? && a.parse(s.current).Num?
    requires !(s.operation.value == "÷" && a.parse(s.current) == Num(0.0))
    requires s.previous != "" && s.current != ""
    ensures ChooseOperation(a, s, op) ==
              s.(current := "", operation := Some(op),
                 previous := FormatNumber(a, Apply(a, s.operation.value, a.parse(s.previous), a.parse(s.current))))
  {
  }

  /** A pending division by zero, chained into another operator, leaves the
      error sentinel as the new left operand. */
  lemma ChainedDivisionByZero(a: Arith, s: State, op: string)
    requires s.operation == Some("÷") && s.previous != "" && s.current != ""
    requires a.parse(s.previous).Num? && a.parse(s.current) == Num(0.0)
    ensures ChooseOperation(a, s, op) == s.(current := "", previous := ErrorText, operation := Some(op))
  {
  }

  /** A pending step whose right operand does not parse is dropped: the
      operand text simply replaces the old left operand. */
  lemma ChainedUnparseableOperand(a: Arith, s: State, op: string)
    requires s.previous != "" && s.current != "" && a.parse(s.current).NaN?
    ensures ChooseOperation(a, s, op) == s.(current := "", previous := s.current, operation := Some(op))
  {
  }

  /** With the error sentinel as left operand, "=" does nothing. */
  lemma ErrorOperandStallsCalculate(a: Arith, s: State)
    requires ValidArith(a) && s.previous == ErrorText
    ensures Calculate(a, s) == s
  {
  }

  /** Evaluation is left to right without precedence: x op1 y op2 z = gives
      (x op1 y) op2 z, the intermediate result passing through its display text. */
  lemma LeftToRight(a: Arith, s: State, op1: string, y: string, op2: string, z: string)
    requires s.previous == "" && s.operation == None && s.current != ""
    requires y != "" && z != ""
    requires op1 in BinaryOps && op2 in BinaryOps
    requires a.parse(s.current).Num? && a.parse(y).Num? && a.parse(z).Num?
    requires !(op1 == "÷" && a.parse(y) == Num(0.0)) && !(op2 == "÷" && a.parse(z) == Num(0.0))
    requires a.parse(FormatNumber(a, Apply(a, op1, a.parse(s.current), a.parse(y)))).Num?
    ensures
      var first := FormatNumber(a, Apply(a, op1, a.parse(s.current), a.parse(y)));
      var s1 := ChooseOperation(a, s, op1).(current := y);
      var s2 := ChooseOperation(a, s1, op2).(current := z);
      Calculate(a, s2).current == FormatNumber(a, Apply(a, op2, a.parse(first), a.parse(z)))
  {
  }

  /** After M+ and MC, MR is a no-op. */
  lemma RecallAfterClearIsNoOp(a: Arith, s: State)
    ensures
      var cleared := MemoryClear(MemoryAdd(a, s));
      MemoryRecall(a, cleared) == cleared && !cleared.hasMemory
  {
  }

}
