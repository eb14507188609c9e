/** The calculator's view of JavaScript numbers.

    The calculator never does arithmetic of its own: it parses operand strings
    with `parseFloat`, combines them with the IEEE operators and `Math`
    functions, and prints them with `toString` or `toExponential(6)`. None of
    that is modelled; each primitive is a field of an `Arith` record, so a
    property proved here without a `ValidArith` premise holds for any numeric
    library, and one with it for every library meeting `ValidArith`. What is
    modelled is the rule that turns a number into display text.
 */
module Numerics {

  /** A JavaScript number: NaN or a numeric value (IEEE infinities and
      rounding are left to the abstract operations). */
  datatype Number = NaN | Num(value: real)

  /** The numeric primitives the calculator calls, left uninterpreted. */
  datatype Arith = Arith(
    parse: string -> Number,           // parseFloat
    add: (Number, Number) -> Number,   // +
    sub: (Number, Number) -> Number,   // -
    mul: (Number, Number) -> Number,   // *
    div: (Number, Number) -> Number,   // /
    pow: (Number, Number) -> Number,   // Math.pow
    sqrt: Number -> Number,            // Math.sqrt
    cbrt: Number -> Number,            // Math.cbrt
    toStr: real -> string,             // Number.prototype.toString
    toExp: real -> string)             // Number.prototype.toExponential(6)

  /** The error sentinel shown instead of a result ("Xato" is Uzbek for "error"). */
  const ErrorText: string := "Xato"

  /** Longest operand the keypad accepts, and widest result text before truncation. */
  const MaxLength: nat := 12

  /** Results above this value switch to exponential notation when too long. */
  const ExpThreshold: real := 999999999999.0

  /** The facts about the JavaScript primitives that the calculator relies on:
      `parseFloat` of the empty string and of the error sentinel is NaN, and
      neither `toString` nor `toExponential` ever yields the empty string. */
  ghost predicate ValidArith(a: Arith)
  {
    && a.parse("") == NaN
    && a.parse(ErrorText) == NaN
    && (forall r: real :: a.toStr(r) != "")
    && (forall r: real :: a.toExp(r) != "")
  }

  /** `x || 0`: NaN (and zero) become zero. */
  function OrZero(x: Number): (r: Number)
    ensures r.Num?
    ensures x.Num? ==> r.value == x.value
  {
    if x.NaN? then Num(0.0) else x
  }

  predicate IsPrefix(p: string, s: string)
  {
    |p| <= |s| && s[..|p|] == p
  }

  /** formatNumber: the sentinel for NaN; otherwise the plain text, cut to
      `MaxLength` characters (not rounded) when it is too long, unless the
      value exceeds `ExpThreshold`, in which case the exponential form. */
  function FormatNumber(a: Arith, x: Number): (r: string)
    ensures x.NaN? ==> r == ErrorText
    ensures x.Num? && |a.toStr(x.value)| <= MaxLength ==> r == a.toStr(x.value)
    ensures x.Num? && x.value <= ExpThreshold ==> |r| <= MaxLength && IsPrefix(r, a.toStr(x.value))
    ensures x.Num? && r != a.toStr(x.value) ==> |a.toStr(x.value)| > MaxLength
    ensures x.Num? && x.value > ExpThreshold ==> r == a.toStr(x.value) || r == a.toExp(x.value)
    ensures x.Num? && |a.toStr(x.value)| > MaxLength && x.value <= ExpThreshold ==>
              |r| == MaxLength && IsPrefix(r, a.toStr(x.value))
    ensures x.Num? && |a.toStr(x.value)| > MaxLength && x.value > ExpThreshold ==> r == a.toExp(x.value)
    ensures ValidArith(a) ==> r != ""
  {
    if x.NaN? then ErrorText
    else
      var text := a.toStr(x.value);
      if |text| > MaxLength then
        if x.value > ExpThreshold then a.toExp(x.value) else text[..MaxLength]
      else text
  }

  /** The width test looks only at positive values: a negative integer longer
      than 12 characters is cut like a long fraction, losing its final digits.
      For this 13-digit value two digits go, so the displayed number is a
      hundred times too small. */
  lemma FormatCutsLongNegatives(a: Arith)
    requires a.toStr(-1234567890123.0) == "-1234567890123"
    ensures FormatNumber(a, Num(-1234567890123.0)) == "-12345678901"
  {
  }

  /** Long fractions are truncated, not rounded: two thirds shows as
      0.6666666666, not 0.6666666667. */
  lemma FormatTruncatesFractions(a: Arith)
    requires a.toStr(2.0 / 3.0) == "0.6666666666666666"
    ensures FormatNumber(a, Num(2.0 / 3.0)) == "0.6666666666"
  {
  }
}
