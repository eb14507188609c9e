/** The calculation engine: the state of the `Calculator` object and the
    transitions its button handlers perform, as pure functions from state to
    state. Each function ends where script.js calls `updateDisplay`; the
    text it would render is given by `Render`.
 */
module Calculator {
  import opened Numerics

  datatype Option<T> = None | Some(value: T)

  /** The calculator's fields: the operand being typed, the operand captured
      when an operator was chosen ("" when none), the pending operator symbol,
      and the memory register with its indicator flag. */
  datatype State = State(
    current: string,
    previous: string,
    operation: Option<string>,
    memory: Number,
    hasMemory: bool)

  /** The state after construction. */
  const Init: State := State("0", "", None, Num(0.0), false)

  /** The operator symbols `calculate` knows; any other pending symbol makes it a no-op. */
  const BinaryOps: set<string> := {"+", "-", "×", "÷", "%"}

  /** The four unary operator symbols of the advanced keys. */
  const UnaryOps: set<string> := {"x²", "x³", "√", "∛"}

  /** True when the two states agree on the memory register and its flag. */
  predicate SameMemory(s: State, t: State)
  {
    t.memory == s.memory && t.hasMemory == s.hasMemory
  }

  /** True when the two states agree on everything but the memory. */
  predicate SameEntry(s: State, t: State)
  {
    t.current == s.current && t.previous == s.previous && t.operation == s.operation
  }

  /** appendNumber: a second decimal point and any key once the operand is 12
      characters long are ignored; a lone "0" is replaced by a digit but
      extended by a point; otherwise the key is appended. */
  function AppendNumber(s: State, token: string): (t: State)
    ensures SameMemory(s, t) && t.previous == s.previous && t.operation == s.operation
    ensures token == "." && '.' in s.current ==> t == s
    ensures |s.current| >= MaxLength ==> t == s
    ensures t == s || t.current == s.current + token || (s.current == "0" && t.current == token && token != ".")
    ensures s.current == "0" && token != "." ==> t.current == token
    ensures !(s.current == "0" && token != ".") && !(token == "." && '.' in s.current) && |s.current| < MaxLength ==>
              t.current == s.current + token
    ensures |token| == 1 && |s.current| <= MaxLength ==> |t.current| <= MaxLength
  {
    if token == "." && '.' in s.current then s
    else if |s.current| >= MaxLength then s
    else if s.current == "0" && token != "." then s.(current := token)
    else s.(current := s.current + token)
  }

  /** calculate: nothing happens unless both operands parse and a known
      operator is pending; dividing by zero shows the error; otherwise the
      formatted result becomes the operand and the pending step is consumed. */
  function Calculate(a: Arith, s: State): (t: State)
    ensures SameMemory(s, t)
    ensures a.parse(s.previous).NaN? || a.parse(s.current).NaN? ==> t == s
    ensures s.operation.None? || s.operation.value !in BinaryOps ==> t == s
    ensures ValidArith(a) && s.previous == "" ==> t == s
    ensures s.operation == Some("÷") && a.parse(s.previous).Num? && a.parse(s.current) == Num(0.0) ==>
              t == ShowError(s)
    ensures t == s || (t.previous == "" && t.operation == None)
    ensures t != s && t.current != ErrorText ==>
              s.operation.Some? && s.operation.value in BinaryOps
              && a.parse(s.previous).Num? && a.parse(s.current).Num?
              && t.current == FormatNumber(a, Apply(a, s.operation.value, a.parse(s.previous), a.parse(s.current)))
    ensures s.operation.Some? && s.operation.value in BinaryOps
            && a.parse(s.previous).Num? && a.parse(s.current).Num?
            && !(s.operation.value == "÷" && a.parse(s.current) == Num(0.0)) ==>
              t.previous == "" && t.operation == None
              && t.current == FormatNumber(a, Apply(a, s.operation.value, a.parse(s.previous), a.parse(s.current)))
    ensures ValidArith(a) && s.current != "" ==> t.current != ""
  {
    var prev := a.parse(s.previous);
    var cur := a.parse(s.current);
    if prev.NaN? || cur.NaN? then s
    else if s.operation.None? || s.operation.value !in BinaryOps then s
    else if s.operation.value == "÷" && cur == Num(0.0) then ShowError(s)
    else s.(current := FormatNumber(a, Apply(a, s.operation.value, prev, cur)), operation := None, previous := "")
  }

  /** The value of one binary step; percent is the product divided by 100. */
  function Apply(a: Arith, op: string, x: Number, y: Number): Number
    requires op in BinaryOps
  {
    if op == "+" then a.add(x, y)
    else if op == "-" then a.sub(x, y)
    else if op == "×" then a.mul(x, y)
    else if op == "÷" then a.div(x, y)
    else a.div(a.mul(x, y), Num(100.0))
  }

  /** chooseOperation: ignored while the operand is empty; otherwise a pending
      step is evaluated first, and its outcome becomes the left operand of the
      newly chosen operator. */
  function ChooseOperation(a: Arith, s: State, op: string): (t: State)
    ensures SameMemory(s, t)
    ensures t.current == ""
    ensures s.current == "" ==> t == s
    ensures s.current != "" ==> t.operation == Some(op)
    ensures s.current != "" && s.previous == "" ==> t.previous == s.current
    ensures s.current != "" && s.previous != "" ==> t.previous == Calculate(a, s).current
    ensures ValidArith(a) && s.current != "" ==> t.previous != ""
  {
    if s.current == "" then s
    else
      var evaluated := if s.previous != "" then Calculate(a, s) else s;
      evaluated.(operation := Some(op), previous := evaluated.current, current := "")
  }

  /** The value of one advanced key; an unknown key leaves the result
      `undefined`, which `isNaN` treats like NaN. */
  function Unary(a: Arith, op: string, x: Number): Number
  {
    if op == "x²" then a.pow(x, Num(2.0))
    else if op == "x³" then a.pow(x, Num(3.0))
    else if op == "√" then a.sqrt(x)
    else if op == "∛" then a.cbrt(x)
    else NaN
  }

  /** handleAdvancedOperation: the square root of a negative operand shows the
      error; every other case replaces the operand with the formatted result
      and drops any pending step. */
  function AdvancedOperation(a: Arith, s: State, op: string): (t: State)
    ensures SameMemory(s, t)
    ensures t.previous == "" && t.operation == None
    ensures op == "√" && a.parse(s.current).Num? && a.parse(s.current).value < 0.0 ==> t.current == ErrorText
    ensures op !in UnaryOps ==> t.current == ErrorText
    ensures !(op == "√" && a.parse(s.current).Num? && a.parse(s.current).value < 0.0) ==>
              t.current == FormatNumber(a, Unary(a, op, a.parse(s.current)))
  {
    var x := a.parse(s.current);
    if op == "√" && x.Num? && x.value < 0.0 then ShowError(s)
    else s.(current := FormatNumber(a, Unary(a, op, x)), operation := None, previous := "")
  }

  /** memoryClear: the register is zeroed and the indicator switched off. */
  function MemoryClear(s: State): (t: State)
    ensures SameEntry(s, t)
    ensures t.memory == Num(0.0) && !t.hasMemory
  {
    s.(memory := Num(0.0), hasMemory := false)
  }

  /** memoryRecall: shows the register, but only once it has been set. */
  function MemoryRecall(a: Arith, s: State): (t: State)
    ensures SameMemory(s, t) && t.previous == s.previous && t.operation == s.operation
    ensures !s.hasMemory ==> t == s
    ensures s.hasMemory ==> t.current == FormatNumber(a, s.memory)
  {
    if s.hasMemory then s.(current := FormatNumber(a, s.memory)) else s
  }

  /** memoryAdd: the operand (zero when it does not parse) is added to the register. */
  function MemoryAdd(a: Arith, s: State): (t: State)
    ensures SameEntry(s, t)
    ensures t.hasMemory
    ensures a.parse(s.current).NaN? ==> t.memory == a.add(s.memory, Num(0.0))
    ensures a.parse(s.current).Num? ==> t.memory == a.add(s.memory, a.parse(s.current))
  {
    s.(memory := a.add(s.memory, OrZero(a.parse(s.current))), hasMemory := true)
  }

  /** memorySubtract: the operand (zero when it does not parse) is taken from the register. */
  function MemorySubtract(a: Arith, s: State): (t: State)
    ensures SameEntry(s, t)
    ensures t.hasMemory
    ensures a.parse(s.current).NaN? ==> t.memory == a.sub(s.memory, Num(0.0))
    ensures a.parse(s.current).Num? ==> t.memory == a.sub(s.memory, a.parse(s.current))
  {
    s.(memory := a.sub(s.memory, OrZero(a.parse(s.current))), hasMemory := true)
  }

  /** clear: back to "0" with nothing pending; the memory survives. */
  function Clear(s: State): (t: State)
    ensures SameMemory(s, t)
    ensures t.current == "0" && t.previous == "" && t.operation == None
  {
    s.(current := "0", previous := "", operation := None)
  }

  /** delete: on the error sentinel, the same as clear; otherwise the last
      character goes, and a single character becomes "0". */
  function Delete(s: State): (t: State)
    ensures SameMemory(s, t)
    ensures s.current == ErrorText ==> t == Clear(s)
    ensures s.current != ErrorText ==> t.previous == s.previous && t.operation == s.operation
    ensures s.current != ErrorText && |s.current| == 1 ==> t.current == "0"
    ensures s.current != ErrorText && |s.current| != 1 ==>
              |t.current| == if s.current == "" then 0 else |s.current| - 1
    ensures s.current != ErrorText && |s.current| > 1 ==> t.current + [s.current[|s.current| - 1]] == s.current
  {
    if s.current == ErrorText then Clear(s)
    else if |s.current| == 1 then s.(current := "0")
    else if s.current == "" then s
    else s.(current := s.current[..|s.current| - 1])
  }

  /** showError: the sentinel with nothing pending; the memory survives. */
  function ShowError(s: State): (t: State)
    ensures SameMemory(s, t)
    ensures t.current == ErrorText && t.previous == "" && t.operation == None
  {
    s.(current := ErrorText, previous := "", operation := None)
  }

  /** What the three display elements show. */
  datatype Screen = Screen(primary: string, secondary: string, memoryIndicator: string)

  /** updateDisplay and updateMemoryDisplay: the operand on the main line;
      "previous operator" on the upper line while an operator is pending, else
      nothing; "M" while the memory is set. */
  function Render(s: State): (v: Screen)
    ensures v.primary == s.current
    ensures v.secondary == "" <==> s.operation.None?
    ensures s.operation.Some? ==>
              IsPrefix(s.previous + " ", v.secondary)
              && v.secondary[|s.previous| + 1..] == s.operation.value
    ensures s.hasMemory ==> v.memoryIndicator == "M"
    ensures !s.hasMemory ==> v.memoryIndicator == ""
  {
    Screen(
      s.current,
      if s.operation.Some? then s.previous + " " + s.operation.value else "",
      if s.hasMemory then "M" else "")
  }
}
