# Calculator input state machine

A model of the browser calculator in `script.js`. The calculator reacts to
presses: digits, the decimal point, the operators `+ - * / %`, percent,
backspace, clear and equals. Its state is six variables: the first and second
operand, the pending operation, the reset-on-next-digit flag, the
last-press-was-an-operator flag and the annotation text. The display text
belongs to the state too, since it doubles as the entry buffer.

Structure:

- `Numbers` covers JavaScript numbers and values. A double is kept as its
  64-bit pattern (`Float`), so `b === 0` is exact: it holds for +0 and -0 only.
  The engine's arithmetic and conversions are fields of a `JsNumbers` value and
  are not computed. These are `Number`, `parseFloat`, `String`,
  `toExponential(5)`, `Math.round` and `+ - * / %`. `JsValue` is the
  `null`/string/number value that `firstOperand` and `updateDisplay` deal with.
- `Arithmetic` holds `add`, `subtract`, `multiply`, `divide`, `operate` and
  `getOperatorSymbol`. `add`, `subtract` and `multiply` are the engine's
  operations themselves. `Operate` states which primitive each token calls,
  applied to the two operands read with `Number(...)`.
- `Display` models the formatting done by `updateDisplay`.
- `Transitions` holds the state and one function per handler. Each function
  gives the state the handler leaves, as a function of the state before it.
  It also holds the invariant `Inv` that every handler keeps.
- `CalculatorObject.Calculator` is a class whose fields are the variables and
  the display. Each handler is a method that assigns the fields in the
  script's order, and each is proved to end in the state its `Transitions`
  function gives.
- `Events` covers which handler each button and key reaches, and runs of
  inputs. It proves that the invariants hold in every reachable state, and it
  states the behaviour of a set of input sequences.

Some behaviours of the code are easy to misread:

- Digit entry has no duplicate-point guard. Only `handleDecimal` checks for a
  point; a number press carrying `.` appends one anyway.
- After equals, the result stays as the first operand while no operation is
  pending. So "first operand unset iff no pending operator" is false. An
  operator pressed after equals reuses that result and ignores newly typed
  digits.
- A division by zero in a chained operator press is not caught. It escapes
  `handleOperator` before any variable is assigned, so the state is unchanged.
- The error text of a division by zero in equals is never visible. It is
  longer than ten characters, so `updateDisplay` parses it and shows the
  result of `toExponential(5)` (NaN). The clear that follows at once then sets
  the display to "0".

## Model

| member | source | states |
|---|---|---|
| Numbers.ToNumber | script.js:39-40 | `Number(v)` leaves a number as it is and maps `null` to zero |
| Numbers.ToText | script.js:144-154 | interpolating a value gives the string itself, "null" for null, and the engine's `String(x)` for a number, which is never empty text |
| Arithmetic.Add | script.js:18-20 | `add` is the engine's `a + b` and cannot throw |
| Arithmetic.Subtract | script.js:22-24 | `subtract` is the engine's `a - b` and cannot throw |
| Arithmetic.Multiply | script.js:26-28 | `multiply` is the engine's `a * b` and cannot throw |
| Arithmetic.Divide | script.js:30-35 | division throws "Division par zéro !" exactly when the divisor is +0 or -0, and otherwise returns the quotient |
| Arithmetic.Operate | script.js:38-56 | both operands are read with `Number(...)`; `+`, `-` and `*` give `add`, `subtract` and `multiply` of them, `/` gives `divide`, `%` the remainder; it throws exactly for `/` with a zero divisor, so modulo never throws; it returns null exactly for an unknown token, and a number for every known one |
| Arithmetic.OperatorSymbol | script.js:164-173 | `-`, `*` and `/` become −, ×, ÷; every other token, `+` and `%` included, is shown unchanged |
| Arithmetic.SymbolsAreDistinct | script.js:164-173 | distinct known operators get distinct symbols |
| Display.PlainText | script.js:59-67 | numbers are rounded to ten decimals before conversion; strings are kept as they are |
| Display.DisplayText | script.js:59-73 | text of at most ten characters is shown as is; longer text is re-read and shown in exponential form; the result is never empty |
| Display.ShortTextShownAsIs | script.js:67-72 | a short string, and null, are displayed unchanged |
| Transitions.Clear | script.js:96-111 | clear sets all operands and the operation to null, both flags to false, the annotation to '' and the display to "0", whatever the state before; the result satisfies the invariant |
| Transitions.ResetDisplay | script.js:90-93 | the display becomes "0" and the reset flag false; nothing else changes |
| Transitions.EnterNumber | script.js:114-131 | after an operator or equals, or on a "0" display, the display becomes exactly the digit ("0." for a point); otherwise the digit is appended; both flags end false; nothing else changes; the invariant is kept |
| Transitions.EnterDecimal | script.js:211-221 | after a due reset the display is "0."; otherwise a point is appended only when there is none; the display always contains a point afterwards; both flags end false; the invariant is kept |
| Transitions.Backspace | script.js:230-236 | a one-character display becomes "0"; a longer one loses exactly its last character; an empty one stays empty; no other field changes; the invariant is kept |
| Transitions.Percentage | script.js:224-227 | the display becomes the formatted value of parseFloat(display)/100; no other field changes; the invariant is kept |
| Transitions.PressOperator | script.js:134-161 | fails exactly when a pending division is evaluated against a zero entry; otherwise the operator is pending, both flags are true and the annotation is "<first> <symbol>"; it evaluates only if an operation is pending and the previous press was not an operator; it captures the display only when there is no first operand; otherwise the first operand and display are unchanged; the invariant is kept |
| Transitions.Equals | script.js:176-208 | no change without a pending operation or a first operand; a division by zero gives the cleared state; otherwise the result is shown and becomes the first operand, no operation is pending, the reset flag is true, the operator flag false and the annotation is "<first> <sym> <display> ="; the invariant is kept |
| CalculatorObject.Calculator.constructor | script.js:2-7 | start-up (the declarations, then the clear at line 297) leaves the cleared state |
| CalculatorObject.Calculator.ResetDisplay | script.js:90-93 | the object ends in the state `Transitions.ResetDisplay` gives |
| CalculatorObject.Calculator.ClearCalculator | script.js:96-111 | the object ends in the cleared state |
| CalculatorObject.Calculator.HandleNumber | script.js:114-131 | the two successive resets and the replace-or-append step end in the state `EnterNumber` gives |
| CalculatorObject.Calculator.HandleOperator | script.js:134-161 | ends in the state `PressOperator` gives; on a division by zero it reports the uncaught Error and leaves every field as it was |
| CalculatorObject.Calculator.HandleEquals | script.js:176-208 | ends in the state `Equals` gives, including the clear after a caught division by zero |
| CalculatorObject.Calculator.HandleDecimal | script.js:211-221 | ends in the state `EnterDecimal` gives |
| CalculatorObject.Calculator.HandlePercentage | script.js:224-227 | ends in the state `Percentage` gives |
| CalculatorObject.Calculator.HandleBackspace | script.js:230-236 | ends in the state `Backspace` gives |
| Events.Step | script.js:240-294 | one input keeps the invariant, and an operator press that throws leaves the state unchanged |
| Events.RunKeepsInvariant | script.js:113-236 | every run of well-formed inputs keeps the invariants |
| Events.ReachableStatesKeepInvariant | script.js:297 | in every state reachable from start-up, the operator flag implies the reset flag, a pending operation has a first operand, and the display is not empty |
| Events.PendingOperatorWasPressed | script.js:158 | a pending operation was either pending at the start of the run or pressed during it |
| Events.OperatorButton | script.js:248-260 | the `%` button reaches `handlePercentage` and the `backspace` button `handleBackspace`; every other operator button reaches `handleOperator` with its token |
| Events.PercentNeverPending | script.js:252-253 | without a press that hands `%` to `handleOperator`, `%` never becomes the pending operation |
| Events.KeyInput | script.js:278-294 | any key containing a digit reaches `handleNumber` with the whole key; every other key is read by the table of `OtherKeyInput`; the operator keys are `+ - * /` only |
| Events.OtherKeyInput | script.js:281-293 | `.` reaches `handleDecimal`; `+ - * /` reach `handleOperator`; Enter and `=` reach `handleEquals`; Escape and Delete reach `clearCalculator`; Backspace reaches `handleBackspace`; `%` reaches `handlePercentage`; every other key does nothing |
| Events.FunctionKeyTypesItsName | script.js:279-280 | the key F2 reaches `handleNumber` and writes "F2" on the display |
| Events.KeyInputIntended | script.js:279-280 | only a single-digit key reaches `handleNumber`, carrying that digit; every other key is read by the table of `OtherKeyInput`, so a function key such as F2 does nothing |
| Events.Dispatch | script.js:240-294 | dispatching an input to the object runs exactly one handler, and ends in the state `Step` gives |
| Events.ClearIsIdempotent | script.js:96-111 | clearing twice gives the same state as clearing once: the initial state |
| Events.SecondPointChangesNothing | script.js:211-221 | a second decimal press in a row changes nothing |
| Events.BackspaceOnLoneCharacter | script.js:230-232 | backspace on any one-character display, "0" included, gives "0" and changes nothing else |
| Events.FivePlusThree | script.js:176-193 | `5 + 3 =` shows the formatted sum, annotates "5 + 3 =", keeps the sum as first operand and leaves no operation pending |
| Events.FiveDividedByZero | script.js:203-206 | `5 / 0 =` ends in the cleared state |
| Events.ChainedDivisionByZero | script.js:138-141 | in `5 / 0 +` the `+` throws and changes nothing |
| Events.OperatorPressedTwice | script.js:152-156 | in `5 + -` the first operand stays "5", `-` is pending and the annotation shows "5 −", with no evaluation |
| Events.OperatorAfterEqualsIgnoresEntry | script.js:146-156 | in `5 + 3 = 7 +` the sum stays as first operand and the typed 7 is not used |
| Events.FiftyPercent | script.js:224-227 | `5 0 %` shows parseFloat("50")/100, formatted |
| Events.DigitEntryAcceptsSecondPoint | script.js:125-130 | a number press carrying `.` appends a second point: `1 . 5 .` displays "1.5." |

## Findings

| source | as written | input that shows it | evidently intended | confidence | as-written member | corrected member |
|---|---|---|---|---|---|---|
| script.js:279-280 | `/[0-9]/.test(event.key)` is not anchored, so any key whose name contains a digit is sent to `handleNumber` as a whole | pressing F2 on a fresh calculator displays "F2" | only a single-digit key is a digit entry | not executed; high | Events.FunctionKeyTypesItsName | Events.KeyInputIntended |

The handlers and runs are stated over `Events.Input`, the handler an input reaches, so they do not depend on which keyboard table produced it. Both tables produce only well-formed inputs, so the invariant proofs cover keys read either way.

## Left out

- DOM plumbing is not modelled: element lookup (script.js:10-15) and listener registration. `Events.Dispatch`, `Events.OperatorButton` and `Events.KeyInput` record only which handler each input reaches.
- The markup that gives each button its `data-number` and `data-operator` value is not part of this model. Any text is accepted, and the invariant proofs assume only that digit texts are non-empty and that operator tokens are ones `operate` knows.
- `updateOperationDisplay` creates and removes the secondary display element (script.js:76-87, script.js:105-108). Only `operationString` is modelled.
- The two-second `setTimeout` after a successful equals (script.js:196-202) is asynchronous and is left out. Afterwards `operationString` may become '' at any later moment.
- Floating point is abstract. `Number`, `parseFloat`, `String` on numbers, `toExponential(5)`, `Math.round` and the five operators are uninterpreted fields of `JsNumbers`. No result of an actual computation (such as 5 + 3 being 8) is stated. The two scenario lemmas that need it assume only that `Number("0")` is zero.
- `Numbers.TextNeverEmpty` is an assumption about the engine: `String(x)` and `x.toExponential(5)` never return empty text. The display-never-empty invariant depends on it.
- `secondOperand` is kept as a field that only the clear assigns, always to null (script.js:3, script.js:98).
- `CalculatorObject.Calculator.constructor`: the page's initial display text is not modelled, because the start-up clear overwrites it at once.
- An Error escaping `handleOperator` is reported to the browser console by the page. The model only returns it as a `Throw` completion.
- Text lengths are counted in Unicode scalar values, as Dafny strings are. JavaScript counts UTF-16 code units in `valueStr.length > 10` (script.js:68), `length === 1` and `slice(0, -1)` (script.js:231-234). The two differ only for characters outside the Basic Multilingual Plane, which a number press could in principle carry; the model does not capture that difference.
