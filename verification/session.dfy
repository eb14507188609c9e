/** A session: the key presses the buttons deliver, one after another, and the
    invariant every reachable state keeps.
 */
module Session {
  import opened Numerics
  import opened Calculator

  /** The key presses the button handlers deliver. */
  datatype Event =
    | Digit(token: string)
    | Operator(symbol: string)
    | Advanced(symbol: string)
    | Equals
    | ClearAll
    | DeleteLast
    | MemClear
    | MemRecall
    | MemAdd
    | MemSubtract

  /** The handler each key calls. */
  function Step(a: Arith, s: State, e: Event): State
  {
    match e
    case Digit(token) => AppendNumber(s, token)
    case Operator(symbol) => ChooseOperation(a, s, symbol)
    case Advanced(symbol) => AdvancedOperation(a, s, symbol)
    case Equals => Calculate(a, s)
    case ClearAll => Clear(s)
    case DeleteLast => Delete(s)
    case MemClear => MemoryClear(s)
    case MemRecall => MemoryRecall(a, s)
    case MemAdd => MemoryAdd(a, s)
    case MemSubtract => MemorySubtract(a, s)
  }

  /** The state after pressing `events` in order. */
  function Run(a: Arith, s: State, events: seq<Event>): State
    decreases |events|
  {
    if events == [] then s else Run(a, Step(a, s, events[0]), events[1..])
  }

  /** An operator is pending exactly when a left operand is held, and an
      unset memory register holds zero. */
  predicate Wellformed(s: State)
  {
    && (s.operation.Some? <==> s.previous != "")
    && (!s.hasMemory ==> s.memory == Num(0.0))
  }

  /** Every key keeps the invariant. */
  lemma StepPreservesWellformed(a: Arith, s: State, e: Event)
    requires ValidArith(a) && Wellformed(s)
    ensures Wellformed(Step(a, s, e))
  {
  }

  /** Every sequence of keys from a well-formed state keeps the invariant. */
  lemma {:induction false} RunPreservesWellformed(a: Arith, s: State, events: seq<Event>)
    requires ValidArith(a) && Wellformed(s)
    ensures Wellformed(Run(a, s, events))
    decreases |events|
  {
    if events != [] {
      StepPreservesWellformed(a, s, events[0]);
      RunPreservesWellformed(a, Step(a, s, events[0]), events[1..]);
    }
  }

  /** Every state reachable from start-up is well-formed. */
  lemma ReachableStatesWellformed(a: Arith, events: seq<Event>)
    requires ValidArith(a)
    ensures Wellformed(Run(a, Init, events))
  {
    RunPreservesWellformed(a, Init, events);
  }

  /** In a well-formed state the upper display line is empty exactly when no
      left operand is held: the calculator is idle. */
  lemma SecondaryShowsPendingStep(s: State)
    requires Wellformed(s)
    ensures Render(s).secondary == "" <==> s.previous == ""
    ensures s.previous != "" ==> IsPrefix(s.previous, Render(s).secondary)
  {
  }

  /** Keying 5 + 3 - 2 = shows 6: the pending addition is evaluated when the
      subtraction is chosen. */
  lemma ChainedExample(a: Arith)
    requires a.parse("5") == Num(5.0) && a.parse("3") == Num(3.0) && a.parse("2") == Num(2.0)
    requires a.add(Num(5.0), Num(3.0)) == Num(8.0) && a.toStr(8.0) == "8" && a.parse("8") == Num(8.0)
    requires a.sub(Num(8.0), Num(2.0)) == Num(6.0) && a.toStr(6.0) == "6"
    ensures Run(a, Init, [Digit("5"), Operator("+"), Digit("3"), Operator("-"), Digit("2"), Equals]).current == "6"
  {
    var s1 := Step(a, Init, Digit("5"));
    assert s1.current == "5";
    var s2 := Step(a, s1, Operator("+"));
    assert s2 == State("", "5", Some("+"), Num(0.0), false);
    var s3 := Step(a, s2, Digit("3"));
    assert s3.current == "3";
    var s4 := Step(a, s3, Operator("-"));
    assert s4 == State("", "8", Some("-"), Num(0.0), false);
    var s5 := Step(a, s4, Digit("2"));
    assert s5 == State("2", "8", Some("-"), Num(0.0), false);
    assert Apply(a, "-", Num(8.0), Num(2.0)) == Num(6.0);
    assert FormatNumber(a, Num(6.0)) == "6";
    var s6 := Step(a, s5, Equals);
    assert s6.current == "6";
    assert Run(a, Init, [Digit("5"), Operator("+"), Digit("3"), Operator("-"), Digit("2"), Equals]) == s6 by {
      var events := [Digit("5"), Operator("+"), Digit("3"), Operator("-"), Digit("2"), Equals];
      assert events[1..] == [Operator("+"), Digit("3"), Operator("-"), Digit("2"), Equals];
      assert events[2..] == [Digit("3"), Operator("-"), Digit("2"), Equals];
      assert events[3..] == [Operator("-"), Digit("2"), Equals];
      assert events[4..] == [Digit("2"), Equals];
      assert events[5..] == [Equals];
    }
  }

  /** Keying 8 ÷ 0 = shows the error sentinel. */
  lemma DivisionByZeroExample(a: Arith)
    requires a.parse("8") == Num(8.0) && a.parse("0") == Num(0.0)
    ensures Run(a, Init, [Digit("8"), Operator("÷"), Digit("0"), Equals]) ==
              State(ErrorText, "", None, Num(0.0), false)
  {
    var events := [Digit("8"), Operator("÷"), Digit("0"), Equals];
    var s1 := Step(a, Init, Digit("8"));
    var s2 := Step(a, s1, Operator("÷"));
    assert s2 == State("", "8", Some("÷"), Num(0.0), false);
    var s3 := Step(a, s2, Digit("0"));
    assert s3 == State("0", "8", Some("÷"), Num(0.0), false);
    assert Step(a, s3, Equals) == State(ErrorText, "", None, Num(0.0), false);
    assert events[1..] == [Operator("÷"), Digit("0"), Equals];
    assert events[2..] == [Digit("0"), Equals];
    assert events[3..] == [Equals];
  }

  /** The square root key shows the error on -4 and 3 on 9. */
  lemma SquareRootExamples(a: Arith, s: State)
    requires a.parse("-4") == Num(-4.0)
    requires a.parse("9") == Num(9.0) && a.sqrt(Num(9.0)) == Num(3.0) && a.toStr(3.0) == "3"
    ensures AdvancedOperation(a, s.(current := "-4"), "√").current == ErrorText
    ensures AdvancedOperation(a, s.(current := "9"), "√").current == "3"
  {
  }

  /** The delete key: "12" becomes "1", "1" becomes "0", and the error
      sentinel gives the cleared state. */
  lemma DeleteExamples(s: State)
    ensures Delete(s.(current := "12")).current == "1"
    ensures Delete(s.(current := "1")).current == "0"
    ensures Delete(s.(current := ErrorText)) == Clear(s)
  {
  }

  /** The operand can be empty: choosing an operator right after start-up
      leaves "" on the main line. */
  lemma OperandCanBeEmpty(a: Arith)
    ensures Run(a, Init, [Operator("+")]) == State("", "0", Some("+"), Num(0.0), false)
  {
  }

  /** The error state is not terminal: a number key appends to the sentinel. */
  lemma DigitsAppendToError(s: State)
    requires s.current == ErrorText
    ensures AppendNumber(s, "5").current == ErrorText + "5"
  {
  }
}
