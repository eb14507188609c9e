# Calculator engine — a Dafny model

This project models the calculation engine of a browser calculator (`script.js`).
The `Calculator` object holds five fields:
- the operand being typed (`currentOperand`);
- the operand captured when an operator key was pressed (`previousOperand`);
- the pending operator symbol (`operation`);
- a memory register (`memoryValue`) and its indicator flag (`hasMemory`).

Its key handlers edit those fields. The model writes them as an immutable `State` and
pure transition functions, one per handler. It also models `Render`, the text the display shows.

The modules are:
- `Numerics` (`numerics.dfy`) covers JavaScript numbers as the engine sees them. `Number` is
  `NaN` or a real value. The primitives the engine calls are fields of an `Arith` record and
  left uninterpreted: `parseFloat`, `+ - * /`, `Math.pow`, `Math.sqrt`, `Math.cbrt`,
  `toString` and `toExponential(6)`. A property with no `ValidArith` premise holds for any
  numeric library; the others hold for every library that meets `ValidArith`. It holds the
  only facts the engine relies on:
  - `parseFloat("")` and `parseFloat("Xato")` are NaN;
  - `toString` and `toExponential` never yield `""`.

  `FormatNumber` is the display-width rule of `formatNumber`.
- `Calculator` (`calculator.dfy`) holds the state, one function per handler and `Render`.
- `CalculatorProperties` (`calculator_properties.dfy`) relates several calls:
  - typing a number key by key;
  - undoing a key with delete;
  - operator chaining and left-to-right evaluation;
  - the memory keys.
- `Session` (`session.dfy`) covers sequences of key presses. It proves that every key keeps
  the state invariant: an operator is pending exactly when a left operand is held, and an unset
  memory register holds zero. It also proves worked examples of whole key sequences.

Three things one might expect of a calculator do not hold in this code, and the model keeps
the code's behaviour:
- The operand is not always non-empty. `chooseOperation` leaves `""` on the main line
  (`Session.OperandCanBeEmpty`), and delete keeps `""` as `""`.
- The error state is not terminal. A number key appends to `"Xato"`
  (`Session.DigitsAppendToError`). An operator key moves `"Xato"` into the left operand, after
  which `=` does nothing (`CalculatorProperties.ErrorOperandStallsCalculate`).
- "At most one decimal point" holds only for single-character keys
  (`CalculatorProperties.AppendKeepsOnePoint`). A longer token such as `".."` is appended
  whole.

Two behaviours of `formatNumber` are kept as written:
- Long results are truncated, not rounded (`Numerics.FormatTruncatesFractions`).
- The switch to exponential form tests only `number > 999999999999`. A negative integer longer
  than 12 characters is therefore cut to 12 and loses its final digits: -1234567890123 is shown
  a hundred times too small (`Numerics.FormatCutsLongNegatives`), and longer ones by a larger
  factor.

## Model

| member | source | states |
|---|---|---|
| Numerics.FormatNumber | script.js:234-244 | NaN shows as "Xato". Text of at most 12 characters is shown whole. Longer text is cut to exactly its first 12 characters when the value is at most 999999999999, and replaced by the exponential form when the value is above it. The result is never empty. |
| Numerics.FormatCutsLongNegatives | script.js:237-241 | -1234567890123 is displayed as "-12345678901", because the exponential switch ignores negative values. |
| Numerics.FormatTruncatesFractions | script.js:237-241 | Two thirds is displayed as "0.6666666666": truncated, not rounded. |
| Calculator.AppendNumber | script.js:94-103 | A second point is ignored, and so is any key once the operand has 12 characters. A lone "0" is replaced by a non-point key, while "0" followed by "." gives "0.". Otherwise the key is appended. Single-character keys never push the operand past 12 characters. The left operand, operator and memory are untouched. |
| Calculator.ChooseOperation | script.js:105-114 | A no-op on an empty operand. Otherwise the operand is empty afterwards and the operator is recorded. The left operand becomes the old operand, or the outcome of the pending step when one was held. The left operand is never empty afterwards. Memory is untouched. |
| Calculator.Calculate | script.js:145-180 | A no-op when either operand fails to parse (including nothing pending), or when no known operator is pending. ÷ by 0 gives the error state. Every other valid step empties the left operand and operator and shows the formatted value of the step. Memory is untouched. |
| Calculator.AdvancedOperation | script.js:116-143 | √ of a negative operand and an unknown key give "Xato". In every case but the negative square root the operand becomes the formatted unary result. The pending step is always dropped and memory is untouched. |
| Calculator.MemoryClear | script.js:182-186 | The register is 0 and the flag is off. Operands and operator are untouched. |
| Calculator.MemoryRecall | script.js:188-193 | Nothing changes unless the flag is set. When set, the operand shows the formatted register. The pending step and memory are untouched. |
| Calculator.MemoryAdd | script.js:195-199 | The flag is set. The register gains the operand, and an unparseable operand counts as 0. The entry is untouched. |
| Calculator.MemorySubtract | script.js:201-205 | The flag is set. The register loses the operand, and an unparseable operand counts as 0. The entry is untouched. |
| Calculator.Clear | script.js:207-212 | The entry is ("0", "", none). Memory survives. |
| Calculator.Delete | script.js:214-225 | On "Xato" it is exactly Clear. Otherwise one character becomes "0" and a longer operand loses exactly its last character. "" stays "". The pending step and memory are untouched. |
| Calculator.ShowError | script.js:227-232 | The entry is ("Xato", "", none). Memory survives. |
| Calculator.Render | script.js:246-257 | The main line is the operand. The upper line is empty exactly when no operator is pending; otherwise it is the left operand, a space, then the operator. "M" is shown exactly when memory is set. |
| CalculatorProperties.AppendKeepsOnePoint | script.js:95-101 | A single key never brings a second decimal point into the operand. |
| CalculatorProperties.TypedDigitsAreCapped | script.js:94-101 | Typing digit and point keys onto an operand other than "" and "0" gives the operand followed by the keys, cut at 12 characters. This holds whenever the operand and the keys hold at most one point between them. |
| CalculatorProperties.TypedNumberFromScratch | script.js:94-101 | Typing digit and point keys onto the "0" of start-up or clear, or onto the empty operand after an operator key, with at most one point and a first key other than 0, gives exactly the keys, cut at 12 characters. A leading digit replaces the "0"; a leading point extends it, so "0" then "." gives "0." and "" then "." gives ".". |
| CalculatorProperties.DeleteUndoesAppend | script.js:214-225 | Delete restores the state before an accepted single-character key, unless the operand was empty or the key completed "Xato". |
| CalculatorProperties.ClearAndErrorIdempotent | script.js:207-232 | Clear and showError are idempotent and keep the memory. |
| CalculatorProperties.SecondOperatorIgnored | script.js:105-114 | A second operator key in a row has no effect. |
| CalculatorProperties.ChainedEvaluation | script.js:105-114 | With a valid pending step, choosing an operator makes the step's formatted value the new left operand. |
| CalculatorProperties.ChainedDivisionByZero | script.js:107-111 | A pending division by zero, chained into an operator, leaves "Xato" as the left operand. |
| CalculatorProperties.ChainedUnparseableOperand | script.js:105-114 | A pending step whose right operand does not parse is dropped. The operand text becomes the left operand. |
| CalculatorProperties.ErrorOperandStallsCalculate | script.js:145-150 | With "Xato" as left operand, = changes nothing. |
| CalculatorProperties.LeftToRight | script.js:105-180 | x op1 y op2 z = evaluates as (x op1 y) op2 z, with no precedence. The intermediate result passes through its display text. |
| CalculatorProperties.RecallAfterClearIsNoOp | script.js:182-193 | After M+ then MC, the flag is off and MR changes nothing. |
| Session.StepPreservesWellformed | script.js:94-232 | Every handler keeps the invariant: an operator is pending exactly when a left operand is held, and an unset register holds 0. |
| Session.RunPreservesWellformed | script.js:94-232 | Every sequence of key presses from a well-formed state keeps that invariant. |
| Session.ReachableStatesWellformed | script.js:11-15 | The start-up state is well-formed, so every state reachable by key presses is well-formed. |
| Session.SecondaryShowsPendingStep | script.js:246-253 | In a well-formed state the upper line is empty exactly when idle. Otherwise it starts with the left operand. |
| Session.ChainedExample | script.js:105-180 | Keying 5 + 3 - 2 = shows 6. |
| Session.DivisionByZeroExample | script.js:162-166 | Keying 8 ÷ 0 = gives the error state. |
| Session.SquareRootExamples | script.js:127-133 | √ shows "Xato" on -4 and 3 on 9. |
| Session.DeleteExamples | script.js:214-225 | Delete turns "12" into "1", "1" into "0", and "Xato" into the cleared state. |
| Session.OperandCanBeEmpty | script.js:110-112 | Choosing an operator right after start-up leaves an empty operand. |
| Session.DigitsAppendToError | script.js:94-101 | A number key appends to "Xato"; the error state is not terminal. |

## Left out

- DOM lookup and rendering (script.js:4-8, 246-257) are out of scope. The text each element
  would show is `Render`; the element writes are not modelled.
- Button and keyboard wiring (script.js:23-90) is out of scope. `Session.Step` mirrors only
  which handler each button calls.
- The keyboard test at script.js:61 is an unanchored regular expression, so keys such as
  `"F5"` reach `appendNumber`. This is why `AppendNumber` takes any string. Properties that
  need a single keypad character assume `|token| == 1` or digit keys.
- Floating-point arithmetic, `parseFloat`, `Math.pow`/`sqrt`/`cbrt`, `toString` and
  `toExponential(6)` are uninterpreted fields of `Arith`. No numeric result is proved, and
  neither is a parse/format round trip. IEEE infinities are not represented separately.
- String lengths are counted in Unicode scalar values, while JavaScript counts UTF-16 units.
  Every character the calculator handles is in the Basic Multilingual Plane, where the two
  counts agree.
- Every handler that changes the text shown calls `updateDisplay` or `updateMemoryDisplay`
  (some also call it when nothing changes). The constructor calls neither, so the start-up
  screen comes from the page rather than from `Render(Init)`. That the screen equals `Render`
  of the state after each key is not stated as a lemma.
- AdvancedOperation: does not state that an unparseable operand shows "Xato". That needs
  `Math.pow`, `Math.sqrt` and `Math.cbrt` to propagate NaN, which the abstract operations do
  not promise.
- FormatNumber: states which form the result takes (sentinel, whole text, 12-character prefix,
  or exponential form), not its digits. The digits come from the uninterpreted `toString` and
  `toExponential`.
