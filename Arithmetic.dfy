/** The arithmetic primitives, the operator dispatch and the operator symbols
    of the calculator (script.js:17-56, script.js:163-173). */
module Arithmetic {
  import opened Numbers

  /** How a call ends in JavaScript: it returns a value or throws an Error
      with a message. */
  datatype Completion<T> = Return(value: T) | Throw(message: string)

  /** The message of the only Error the calculator ever throws. */
  const DivisionByZeroMessage: string := "Division par z\U{e9}ro !"

  /** The operator tokens `operate` knows. */
  const Operators: set<string> := {"+", "-", "*", "/", "%"}

  /** `add(a, b)`: the engine's `a + b`; it never throws. */
  function Add(js: JsNumbers, a: Float, b: Float): (r: Float)
    ensures r == js.add(a, b)
  {
    js.add(a, b)
  }

  /** `subtract(a, b)`: the engine's `a - b`; it never throws. */
  function Subtract(js: JsNumbers, a: Float, b: Float): (r: Float)
    ensures r == js.sub(a, b)
  {
    js.sub(a, b)
  }

  /** `multiply(a, b)`: the engine's `a * b`; it never throws. */
  function Multiply(js: JsNumbers, a: Float, b: Float): (r: Float)
    ensures r == js.mul(a, b)
  {
    js.mul(a, b)
  }

  /** Division throws exactly when the divisor is +0 or -0. */
  function Divide(js: JsNumbers, a: Float, b: Float): (r: Completion<JsValue>)
    ensures r.Throw? <==> IsZero(b)
    ensures r.Throw? ==> r.message == DivisionByZeroMessage
    ensures r.Return? ==> r.value == Num(js.div(a, b))
  {
    if IsZero(b) then Throw(DivisionByZeroMessage) else Return(Num(js.div(a, b)))
  }

  /** `operate(operator, a, b)`: both operands go through `Number(...)`, then
      the token picks the primitive; an unknown token gives `null`. */
  function Operate(js: JsNumbers, op: string, a: JsValue, b: JsValue): (r: Completion<JsValue>)
    ensures op == "+" ==> r == Return(Num(Add(js, ToNumber(js, a), ToNumber(js, b))))
    ensures op == "-" ==> r == Return(Num(Subtract(js, ToNumber(js, a), ToNumber(js, b))))
    ensures op == "*" ==> r == Return(Num(Multiply(js, ToNumber(js, a), ToNumber(js, b))))
    ensures op == "/" ==> r == Divide(js, ToNumber(js, a), ToNumber(js, b))
    ensures r.Throw? <==> op == "/" && IsZero(ToNumber(js, b))
    ensures r.Throw? ==> r.message == DivisionByZeroMessage
    ensures r == Return(Null) <==> op !in Operators
    ensures op in Operators && r.Return? ==> r.value.Num?
    ensures op == "%" ==> r == Return(Num(js.rem(ToNumber(js, a), ToNumber(js, b))))
  {
    var x, y := ToNumber(js, a), ToNumber(js, b);
    if op == "+" then Return(Num(Add(js, x, y)))
    else if op == "-" then Return(Num(Subtract(js, x, y)))
    else if op == "*" then Return(Num(Multiply(js, x, y)))
    else if op == "/" then Divide(js, x, y)
    else if op == "%" then Return(Num(js.rem(x, y)))
    else Return(Null)
  }

  /** The symbol shown for an operator token: `-`, `*` and `/` become the
      typographic minus, times and division signs; every other token,
      known or not, is shown as it is. */
  function OperatorSymbol(op: string): (sym: string)
    ensures sym == op <==> op !in {"-", "*", "/"}
    ensures op in Operators ==> |sym| == 1
    ensures op == "-" ==> sym == "\U{2212}"
    ensures op == "*" ==> sym == "\U{d7}"
    ensures op == "/" ==> sym == "\U{f7}"
  {
    if op == "+" then "+"
    else if op == "-" then "\U{2212}"
    else if op == "*" then "\U{d7}"
    else if op == "/" then "\U{f7}"
    else if op == "%" then "%"
    else op
  }

  /** Different known operators are shown with different symbols, so the
      annotation always tells which operator is pending. */
  lemma SymbolsAreDistinct(op1: string, op2: string)
    requires op1 in Operators && op2 in Operators && op1 != op2
    ensures OperatorSymbol(op1) != OperatorSymbol(op2)
  {
  }
}
