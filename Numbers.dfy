/** JavaScript numbers and the few JavaScript values the calculator passes around.

    A JavaScript number is an IEEE 754 double; the model keeps its 64-bit
    pattern, so that `b === 0` can be stated exactly (it holds for +0 and -0
    and for nothing else, not even NaN). The floating-point operations and the
    number/text conversions are not computed here: they are the fields of a
    `JsNumbers` value, which the calculator receives once and uses throughout. */
module Numbers {

  /** An IEEE 754 double, given by its bit pattern. */
  datatype Float = Float(bits: bv64)

  const PositiveZero: Float := Float(0x0000_0000_0000_0000)
  const NegativeZero: Float := Float(0x8000_0000_0000_0000)
  /** 100, the divisor of the percentage key. */
  const Hundred: Float := Float(0x4059_0000_0000_0000)
  /** 1e10, the scale of the rounding to ten decimals. */
  const TenBillion: Float := Float(0x4202_A05F_2000_0000)

  /** JavaScript's `x === 0` on a number. */
  predicate IsZero(x: Float) {
    x == PositiveZero || x == NegativeZero
  }

  /** The number semantics of the JavaScript engine, left uninterpreted. */
  datatype JsNumbers = JsNumbers(
    number: string -> Float,         // Number(text)
    parseFloat: string -> Float,     // parseFloat(text)
    toString: Float -> string,       // String(x)
    toExponential5: Float -> string, // x.toExponential(5)
    round: Float -> Float,           // Math.round(x)
    add: (Float, Float) -> Float,    // a + b
    sub: (Float, Float) -> Float,    // a - b
    mul: (Float, Float) -> Float,    // a * b
    div: (Float, Float) -> Float,    // a / b
    rem: (Float, Float) -> Float     // a % b
  )

  /** What every JavaScript engine guarantees about its number-to-text
      conversions and the model relies on: they never produce empty text. */
  ghost predicate TextNeverEmpty(js: JsNumbers) {
    && (forall x: Float :: js.toString(x) != [])
    && (forall x: Float :: js.toExponential5(x) != [])
  }

  /** The JavaScript values that the calculator stores and displays:
      `null`, a string, or a number. */
  datatype JsValue = Null | Str(text: string) | Num(value: Float)

  /** `Number(v)`: text is parsed, a number is itself, and `Number(null)` is +0. */
  function ToNumber(js: JsNumbers, v: JsValue): (x: Float)
    ensures v.Num? ==> x == v.value
    ensures v.Null? ==> x == PositiveZero
  {
    match v
    case Null => PositiveZero
    case Str(s) => js.number(s)
    case Num(n) => n
  }

  /** `String(v)`, as a template literal `${v}` also writes it. */
  function ToText(js: JsNumbers, v: JsValue): (s: string)
    ensures v.Str? ==> s == v.text
    ensures v.Null? ==> s == "null"
    ensures v.Num? ==> s == js.toString(v.value)
    ensures TextNeverEmpty(js) && v != Str("") ==> s != ""
  {
    match v
    case Null => "null"
    case Str(t) => t
    case Num(n) => js.toString(n)
  }
}
