/** The calculator's state and, for each input handler of script.js, the
    state it leaves behind, stated as a function of the state it starts from.
    These functions are the specification the handlers of class
    `CalculatorObject.Calculator` are proved against. */
module Transitions {
  import opened Numbers
  import opened Arithmetic
  import opened Display

  datatype Option<T> = None | Some(value: T)

  /** The six global variables of script.js:1-7 and the display text, which
      doubles as the entry buffer. */
  datatype State = State(
    display: string,
    firstOperand: JsValue,
    secondOperand: JsValue,
    currentOperation: Option<string>,
    shouldResetDisplay: bool,
    lastButtonWasOperator: bool,
    operationString: string)

  /** The state `clearCalculator` leaves (script.js:96-111, script.js:90-93). */
  const Initial: State := State("0", Null, Null, None, false, false, "")

  /** What every handler keeps true, starting from `Initial`. */
  predicate Inv(s: State) {
    && (s.lastButtonWasOperator ==> s.shouldResetDisplay)
    && (s.currentOperation.Some? ==> s.firstOperand != Null && s.currentOperation.value in Operators)
    && s.display != ""
    && s.secondOperand == Null
  }

  /** `clearCalculator`: every field back to its initial value, whatever the
      state before. */
  function Clear(s: State): (t: State)
    ensures t.display == "0" && t.operationString == ""
    ensures t.firstOperand == Null && t.secondOperand == Null && t.currentOperation == None
    ensures !t.shouldResetDisplay && !t.lastButtonWasOperator
    ensures Inv(t)
  {
    Initial
  }

  /** `resetDisplay`: the display shows "0" and the reset flag is off. */
  function ResetDisplay(s: State): (t: State)
    ensures t.display == "0" && !t.shouldResetDisplay
    ensures t.(display := s.display, shouldResetDisplay := s.shouldResetDisplay) == s
  {
    s.(display := "0", shouldResetDisplay := false)
  }

  /** The next digit starts a new entry instead of extending the display:
      after an operator or equals, or when the display is a lone "0". */
  predicate StartsNewEntry(s: State) {
    s.shouldResetDisplay || s.lastButtonWasOperator || s.display == "0"
  }

  /** `handleNumber(digit)` (script.js:114-131). A new entry is exactly the
      digit (a point is written after the "0"); otherwise the digit is
      appended, with no check for a second point. Both flags end false. */
  function EnterNumber(s: State, digit: string): (t: State)
    ensures StartsNewEntry(s) && digit != "." ==> t.display == digit
    ensures StartsNewEntry(s) && digit == "." ==> t.display == "0."
    ensures !StartsNewEntry(s) ==> t.display == s.display + digit
    ensures !t.shouldResetDisplay && !t.lastButtonWasOperator
    ensures t.(display := s.display, shouldResetDisplay := s.shouldResetDisplay,
               lastButtonWasOperator := s.lastButtonWasOperator) == s
    ensures Inv(s) && digit != "" ==> Inv(t)
  {
    var entry := if StartsNewEntry(s) then "0" else s.display;
    s.(display := if entry == "0" && digit != "." then digit else entry + digit,
       shouldResetDisplay := false,
       lastButtonWasOperator := false)
  }

  /** `handleDecimal` (script.js:211-221): after a reset to "0" when one is
      due, a point is added only if the entry has none. */
  function EnterDecimal(s: State): (t: State)
    ensures '.' in t.display
    ensures !s.shouldResetDisplay && '.' in s.display ==> t.display == s.display
    ensures !s.shouldResetDisplay && '.' !in s.display ==> t.display == s.display + "."
    ensures s.shouldResetDisplay ==> t.display == "0."
    ensures !t.shouldResetDisplay && !t.lastButtonWasOperator
    ensures t.(display := s.display, shouldResetDisplay := s.shouldResetDisplay,
               lastButtonWasOperator := s.lastButtonWasOperator) == s
    ensures Inv(s) ==> Inv(t)
  {
    var entry := if s.shouldResetDisplay then "0" else s.display;
    s.(display := if '.' in entry then entry else entry + ".",
       shouldResetDisplay := false,
       lastButtonWasOperator := false)
  }

  /** `handleBackspace` (script.js:230-236): a one-character display becomes
      "0"; a longer one loses exactly its last character. */
  function Backspace(s: State): (t: State)
    ensures |s.display| == 1 ==> t.display == "0"
    ensures |s.display| > 1 ==> t.display == s.display[..|s.display| - 1]
    ensures s.display == "" ==> t.display == ""
    ensures t == s.(display := t.display)
    ensures Inv(s) ==> Inv(t)
  {
    var d := s.display;
    s.(display := if |d| == 1 then "0" else if |d| == 0 then "" else d[..|d| - 1])
  }

  /** `handlePercentage` (script.js:224-227): the display, read with
      `parseFloat` and divided by 100, is shown again; nothing else changes. */
  function Percentage(js: JsNumbers, s: State): (t: State)
    ensures t.display == DisplayText(js, Num(js.div(js.parseFloat(s.display), Hundred)))
    ensures t == s.(display := t.display)
    ensures TextNeverEmpty(js) && Inv(s) ==> Inv(t)
  {
    s.(display := DisplayText(js, Num(js.div(js.parseFloat(s.display), Hundred))))
  }

  /** An operator press evaluates first: an operation is pending and the
      previous press was not an operator, so a second operand was entered. */
  predicate Evaluates(s: State) {
    s.currentOperation.Some? && !s.lastButtonWasOperator
  }

  /** The annotation an operator press writes. */
  function PendingAnnotation(js: JsNumbers, first: JsValue, op: string): string {
    ToText(js, first) + " " + OperatorSymbol(op)
  }

  /** `handleOperator(op)` (script.js:134-161). A thrown Error is the division
      by zero that escapes the chained evaluation before any field is assigned. */
  function PressOperator(js: JsNumbers, s: State, op: string): (r: Completion<State>)
    ensures r.Throw? <==> Evaluates(s) && s.currentOperation.value == "/" && IsZero(js.number(s.display))
    ensures r.Throw? ==> r.message == DivisionByZeroMessage
    ensures r.Return? ==> r.value.currentOperation == Some(op)
    ensures r.Return? ==> r.value.shouldResetDisplay && r.value.lastButtonWasOperator
    ensures r.Return? ==> r.value.operationString == PendingAnnotation(js, r.value.firstOperand, op)
    ensures r.Return? ==> r.value.secondOperand == s.secondOperand
    ensures r.Return? && Evaluates(s) ==>
              r.value.firstOperand == Operate(js, s.currentOperation.value, s.firstOperand, Str(s.display)).value
              && r.value.display == DisplayText(js, r.value.firstOperand)
    ensures !Evaluates(s) ==> r.Return? && r.value.display == s.display
    ensures !Evaluates(s) && s.firstOperand == Null ==> r.value.firstOperand == Str(s.display)
    ensures !Evaluates(s) && s.firstOperand != Null ==> r.value.firstOperand == s.firstOperand
    ensures TextNeverEmpty(js) && Inv(s) && op in Operators && r.Return? ==> Inv(r.value)
  {
    if Evaluates(s) then
      match Operate(js, s.currentOperation.value, s.firstOperand, Str(s.display))
      case Throw(message) => Throw(message)
      case Return(v) =>
        Return(s.(display := DisplayText(js, v), firstOperand := v,
                   operationString := PendingAnnotation(js, v, op),
                   currentOperation := Some(op), shouldResetDisplay := true, lastButtonWasOperator := true))
    else
      var first := if s.firstOperand == Null then Str(s.display) else s.firstOperand;
      Return(s.(firstOperand := first,
                 operationString := PendingAnnotation(js, first, op),
                 currentOperation := Some(op), shouldResetDisplay := true, lastButtonWasOperator := true))
  }

  /** The annotation equals writes: the whole expression and "=". */
  function CompleteAnnotation(js: JsNumbers, s: State): string
    requires s.currentOperation.Some?
  {
    ToText(js, s.firstOperand) + " " + OperatorSymbol(s.currentOperation.value) + " " + s.display + " ="
  }

  /** `handleEquals` (script.js:176-208). Without a pending operation or a
      first operand nothing changes; a division by zero is caught and ends in
      a full clear; otherwise the result is shown and becomes the first
      operand, and no operation is pending. */
  function Equals(js: JsNumbers, s: State): (t: State)
    ensures s.currentOperation.None? || s.firstOperand == Null ==> t == s
    ensures s.currentOperation.Some? && s.firstOperand != Null ==>
              var result := Operate(js, s.currentOperation.value, s.firstOperand, Str(s.display));
              (result.Throw? ==> t == Initial) &&
              (result.Return? ==>
                 && t.firstOperand == result.value && t.display == DisplayText(js, result.value)
                 && t.currentOperation == None && t.shouldResetDisplay && !t.lastButtonWasOperator
                 && t.operationString == CompleteAnnotation(js, s) && t.secondOperand == s.secondOperand)
    ensures TextNeverEmpty(js) && Inv(s) ==> Inv(t)
  {
    if s.currentOperation.None? || s.firstOperand == Null then s
    else
      match Operate(js, s.currentOperation.value, s.firstOperand, Str(s.display))
      case Throw(_) => Clear(s)
      case Return(v) =>
        s.(display := DisplayText(js, v), firstOperand := v, currentOperation := None,
           shouldResetDisplay := true, lastButtonWasOperator := false,
           operationString := CompleteAnnotation(js, s))
  }
}
