/** Inputs and runs: which handler each button and key reaches
    (script.js:240-294), the state a sequence of inputs leads to, the
    invariants every run keeps, and the behaviour of some input sequences. */
module Events {
  import opened Numbers
  import opened Arithmetic
  import opened Display
  import opened Transitions
  import opened CalculatorObject

  /** One press, named by the handler it reaches. */
  datatype Input =
    | DigitPress(text: string)
    | PointPress
    | OperatorPress(op: string)
    | EqualsPress
    | ClearPress
    | BackspacePress
    | PercentPress

  /** The inputs the page can produce: a number key carries some text, and
      an operator that reaches `handleOperator` is one `operate` knows. */
  predicate WellFormed(i: Input) {
    && (i.DigitPress? ==> i.text != "")
    && (i.OperatorPress? ==> i.op in Operators)
  }

  /** The state one input leads to. An Error escaping `handleOperator`
      leaves the state as it was. */
  function Step(js: JsNumbers, s: State, i: Input): (t: State)
    ensures TextNeverEmpty(js) && Inv(s) && WellFormed(i) ==> Inv(t)
    ensures i.OperatorPress? && PressOperator(js, s, i.op).Throw? ==> t == s
  {
    match i
    case DigitPress(d) => EnterNumber(s, d)
    case PointPress => EnterDecimal(s)
    case OperatorPress(op) =>
      (match PressOperator(js, s, op)
       case Return(t) => t
       case Throw(_) => s)
    case EqualsPress => Equals(js, s)
    case ClearPress => Clear(s)
    case BackspacePress => Backspace(s)
    case PercentPress => Percentage(js, s)
  }

  /** The state a sequence of inputs leads to, one handler at a time. */
  function Run(js: JsNumbers, s: State, inputs: seq<Input>): State
    decreases |inputs|
  {
    if inputs == [] then s else Run(js, Step(js, s, inputs[0]), inputs[1..])
  }

  /** Every run of well-formed inputs keeps the invariants: the operator flag
      implies the reset flag, a pending operation has a first operand, and
      the display is never empty. */
  lemma {:induction false} RunKeepsInvariant(js: JsNumbers, s: State, inputs: seq<Input>)
    requires TextNeverEmpty(js) && Inv(s)
    requires forall k :: 0 <= k < |inputs| ==> WellFormed(inputs[k])
    ensures Inv(Run(js, s, inputs))
    decreases |inputs|
  {
    if inputs != [] {
      RunKeepsInvariant(js, Step(js, s, inputs[0]), inputs[1..]);
    }
  }

  /** The invariants hold in every state the page can reach after start-up. */
  lemma ReachableStatesKeepInvariant(js: JsNumbers, inputs: seq<Input>)
    requires TextNeverEmpty(js)
    requires forall k :: 0 <= k < |inputs| ==> WellFormed(inputs[k])
    ensures var t := Run(js, Initial, inputs);
            && (t.lastButtonWasOperator ==> t.shouldResetDisplay)
            && (t.currentOperation.Some? ==> t.firstOperand != Null)
            && t.display != ""
  {
    RunKeepsInvariant(js, Initial, inputs);
  }

  /** A pending operator is one that was pressed during the run, or the one
      that was pending before it. */
  lemma {:induction false} PendingOperatorWasPressed(js: JsNumbers, s: State, inputs: seq<Input>)
    ensures var t := Run(js, s, inputs);
            t.currentOperation.Some? ==>
              t.currentOperation == s.currentOperation
              || exists k :: 0 <= k < |inputs| && inputs[k] == OperatorPress(t.currentOperation.value)
    decreases |inputs|
  {
    if inputs != [] {
      var s' := Step(js, s, inputs[0]);
      PendingOperatorWasPressed(js, s', inputs[1..]);
      var t := Run(js, s, inputs);
      if t.currentOperation.Some? && t.currentOperation != s.currentOperation {
        if t.currentOperation == s'.currentOperation {
          assert inputs[0] == OperatorPress(t.currentOperation.value);
        } else {
          var k :| 0 <= k < |inputs[1..]| && inputs[1..][k] == OperatorPress(t.currentOperation.value);
          assert inputs[k + 1] == inputs[1..][k];
        }
      }
    }
  }

  /** An operator button: `%` and `backspace` have handlers of their own;
      every other token reaches `handleOperator` (script.js:248-260). */
  function OperatorButton(token: string): (i: Input)
    ensures i.OperatorPress? <==> token != "%" && token != "backspace"
    ensures i.OperatorPress? ==> i.op == token
    ensures token == "%" ==> i == PercentPress
    ensures token == "backspace" ==> i == BackspacePress
  {
    if token == "%" then PercentPress
    else if token == "backspace" then BackspacePress
    else OperatorPress(token)
  }

  /** Without a press that makes `%` pending, `%` is never a pending
      operation: the percent button and key go to `handlePercentage`. */
  lemma PercentNeverPending(js: JsNumbers, inputs: seq<Input>)
    requires forall k :: 0 <= k < |inputs| ==> inputs[k] != OperatorPress("%")
    ensures Run(js, Initial, inputs).currentOperation != Some("%")
  {
    PendingOperatorWasPressed(js, Initial, inputs);
  }

  predicate IsDigit(c: char) {
    '0' <= c <= '9'
  }

  /** The test `/[0-9]/.test(key)`: some character of the key is a digit. */
  predicate HasDigit(key: string) {
    exists k :: 0 <= k < |key| && IsDigit(key[k])
  }

  /** The keyboard table as written (script.js:278-294). */
  function KeyInput(key: string): (r: Option<Input>)
    ensures r == Some(DigitPress(key)) <==> HasDigit(key)
    ensures r.Some? && r.value.OperatorPress? ==> r.value.op in {"+", "-", "*", "/"}
    ensures !HasDigit(key) ==> r == OtherKeyInput(key)
    ensures r.Some? ==> WellFormed(r.value)
  {
    if HasDigit(key) then Some(DigitPress(key))
    else OtherKeyInput(key)
  }

  /** The keyboard table without its digit test: the point, the four
      operators, Enter and `=`, Escape and Delete, Backspace and `%`; every
      other key does nothing. */
  function OtherKeyInput(key: string): (r: Option<Input>)
    ensures r.Some? ==> !r.value.DigitPress?
    ensures key == "." ==> r == Some(PointPress)
    ensures key in {"+", "-", "*", "/"} ==> r == Some(OperatorPress(key))
    ensures key == "Enter" || key == "=" ==> r == Some(EqualsPress)
    ensures key == "Escape" || key == "Delete" ==> r == Some(ClearPress)
    ensures key == "Backspace" ==> r == Some(BackspacePress)
    ensures key == "%" ==> r == Some(PercentPress)
    ensures r.None? <==> key !in {".", "+", "-", "*", "/", "Enter", "=", "Escape", "Delete", "Backspace", "%"}
  {
    if key == "." then Some(PointPress)
    else if key == "+" || key == "-" || key == "*" || key == "/" then Some(OperatorPress(key))
    else if key == "Enter" || key == "=" then Some(EqualsPress)
    else if key == "Escape" || key == "Delete" then Some(ClearPress)
    else if key == "Backspace" then Some(BackspacePress)
    else if key == "%" then Some(PercentPress)
    else None
  }

  /** The unanchored digit test sends function keys such as F2 to
      `handleNumber`, which then writes their name on the display. */
  lemma FunctionKeyTypesItsName(js: JsNumbers)
    ensures KeyInput("F2") == Some(DigitPress("F2"))
    ensures Run(js, Initial, [DigitPress("F2")]).display == "F2"
  {
    assert IsDigit("F2"[1]);
  }

  /** The keyboard table with the digit test the script intends: the key is
      a single digit. */
  function KeyInputIntended(key: string): (r: Option<Input>)
    ensures (r.Some? && r.value.DigitPress?) <==> |key| == 1 && IsDigit(key[0])
    ensures r.Some? && r.value.DigitPress? ==> r.value.text == key
    ensures !(|key| == 1 && IsDigit(key[0])) ==> r == OtherKeyInput(key)
    ensures !HasDigit(key) || |key| == 1 ==> r == KeyInput(key)
    ensures r.Some? ==> WellFormed(r.value)
  {
    if |key| == 1 && IsDigit(key[0]) then Some(DigitPress(key))
    else OtherKeyInput(key)
  }

  /** The event listeners: each input runs one handler of the calculator to
      completion. */
  method Dispatch(c: Calculator, i: Input)
    modifies c
    ensures c.Snapshot() == Step(c.js, old(c.Snapshot()), i)
  {
    match i
    case DigitPress(d) => c.HandleNumber(d);
    case PointPress => c.HandleDecimal();
    case OperatorPress(op) => var _ := c.HandleOperator(op);
    case EqualsPress => c.HandleEquals();
    case ClearPress => c.ClearCalculator();
    case BackspacePress => c.HandleBackspace();
    case PercentPress => c.HandlePercentage();
  }

  // Properties of a few input sequences.

  /** Clearing twice leaves the same state as clearing once. */
  lemma ClearIsIdempotent(js: JsNumbers, s: State)
    ensures Run(js, s, [ClearPress, ClearPress]) == Run(js, s, [ClearPress]) == Initial
  {
  }

  /** A second decimal point in a row changes nothing. */
  lemma SecondPointChangesNothing(js: JsNumbers, s: State)
    ensures Run(js, s, [PointPress, PointPress]) == Run(js, s, [PointPress])
  {
  }

  /** Backspace on "0" gives "0", and on any one-character display too. */
  lemma BackspaceOnLoneCharacter(js: JsNumbers, s: State)
    requires |s.display| == 1
    ensures Run(js, s, [BackspacePress]).display == "0"
    ensures Run(js, s, [BackspacePress]) == s.(display := "0")
  {
  }

  /** `5 + 3 =` shows the formatted sum and annotates "5 + 3 =". The sum then
      stays as first operand, with no operation pending. */
  lemma FivePlusThree(js: JsNumbers)
    ensures var sum := Num(js.add(js.number("5"), js.number("3")));
            var t := Run(js, Initial, [DigitPress("5"), OperatorPress("+"), DigitPress("3"), EqualsPress]);
            && t.display == DisplayText(js, sum)
            && t.operationString == "5 + 3 ="
            && t.firstOperand == sum && t.currentOperation == None
            && t.shouldResetDisplay && !t.lastButtonWasOperator
  {
  }

  /** `5 / 0 =` ends in the state of a full clear. */
  lemma FiveDividedByZero(js: JsNumbers)
    requires IsZero(js.number("0"))
    ensures Run(js, Initial, [DigitPress("5"), OperatorPress("/"), DigitPress("0"), EqualsPress]) == Initial
  {
  }

  /** `5 / 0 +`: the chained evaluation throws and the state stays as it was
      before the `+`. */
  lemma ChainedDivisionByZero(js: JsNumbers)
    requires IsZero(js.number("0"))
    ensures var before := Run(js, Initial, [DigitPress("5"), OperatorPress("/"), DigitPress("0")]);
            && before == State("0", Str("5"), Null, Some("/"), false, false, "5 \U{f7}")
            && Run(js, before, [OperatorPress("+")]) == before
  {
  }

  /** `5 + -`: the second operator replaces the first without evaluating;
      the first operand stays "5" and the annotation shows the new symbol. */
  lemma OperatorPressedTwice(js: JsNumbers)
    ensures Run(js, Initial, [DigitPress("5"), OperatorPress("+"), OperatorPress("-")])
            == State("5", Str("5"), Null, Some("-"), true, true, "5 \U{2212}")
  {
  }

  /** `5 + 3 = 7 +`: after equals, an operator keeps the result as first
      operand, and the newly typed 7 is not used. */
  lemma OperatorAfterEqualsIgnoresEntry(js: JsNumbers)
    ensures var sum := Num(js.add(js.number("5"), js.number("3")));
            var t := Run(js, Initial, [DigitPress("5"), OperatorPress("+"), DigitPress("3"), EqualsPress,
                                       DigitPress("7"), OperatorPress("+")]);
            && t.display == "7" && t.firstOperand == sum && t.currentOperation == Some("+")
            && t.operationString == ToText(js, sum) + " +"
  {
  }

  /** `5 0 %` shows 50 read with `parseFloat` and divided by 100. */
  lemma FiftyPercent(js: JsNumbers)
    ensures Run(js, Initial, [DigitPress("5"), DigitPress("0"), PercentPress]).display
            == DisplayText(js, Num(js.div(js.parseFloat("50"), Hundred)))
  {
    assert Run(js, Initial, [DigitPress("5"), DigitPress("0")]).display == "5" + "0" == "50";
  }

  /** Digit entry has no guard against a second point: the point key on the
      number buttons appends it again. */
  lemma DigitEntryAcceptsSecondPoint(js: JsNumbers)
    ensures Run(js, Initial, [DigitPress("1"), PointPress, DigitPress("5"), DigitPress(".")]).display == "1.5."
  {
  }
}
