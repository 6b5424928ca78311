/** The calculator of script.js as an object: its fields are the script's
    global variables and the display text, and each handler is a method that
    assigns them in the order the script does. Every method is proved to
    leave the state its function in module `Transitions` describes. */
module CalculatorObject {
  import opened Numbers
  import opened Arithmetic
  import opened Display
  import opened Transitions

  class Calculator {
    /** The engine's number semantics. */
    const js: JsNumbers

    var display: string
    var firstOperand: JsValue
    var secondOperand: JsValue
    var currentOperation: Option<string>
    var shouldResetDisplay: bool
    var lastButtonWasOperator: bool
    var operationString: string

    /** The abstract value of the calculator. */
    function Snapshot(): State
      reads this
    {
      State(display, firstOperand, secondOperand, currentOperation,
            shouldResetDisplay, lastButtonWasOperator, operationString)
    }

    /** The script's start-up: the declarations of script.js:2-7, then the
        call `clearCalculator()` of script.js:297. */
    constructor (js: JsNumbers)
      ensures this.js == js
      ensures Snapshot() == Initial
    {
      this.js := js;
      display := "";
      firstOperand := Null;
      secondOperand := Null;
      currentOperation := None;
      shouldResetDisplay := false;
      lastButtonWasOperator := false;
      operationString := "";
      new;
      ClearCalculator();
    }

    method ResetDisplay()
      modifies this
      ensures Snapshot() == Transitions.ResetDisplay(old(Snapshot()))
    {
      display := "0";
      shouldResetDisplay := false;
    }

    method ClearCalculator()
      modifies this
      ensures Snapshot() == Clear(old(Snapshot()))
    {
      firstOperand := Null;
      secondOperand := Null;
      currentOperation := None;
      shouldResetDisplay := false;
      lastButtonWasOperator := false;
      operationString := "";
      ResetDisplay();
    }

    method HandleNumber(digit: string)
      modifies this
      ensures Snapshot() == EnterNumber(old(Snapshot()), digit)
    {
      if shouldResetDisplay || display == "0" {
        ResetDisplay();
      }
      if lastButtonWasOperator {
        ResetDisplay();
        lastButtonWasOperator := false;
      }
      if display == "0" && digit != "." {
        display := digit;
      } else {
        display := display + digit;
      }
    }

    /** An Error thrown here is caught by no handler: it reaches the event
        listener, and the page carries on. */
    method HandleOperator(op: string) returns (outcome: Completion<()>)
      modifies this
      ensures match PressOperator(js, old(Snapshot()), op)
              case Return(t) => outcome == Return(()) && Snapshot() == t
              case Throw(message) => outcome == Throw(message) && Snapshot() == old(Snapshot())
    {
      var currentValue := display;
      if currentOperation.Some? && !lastButtonWasOperator {
        var result := Operate(js, currentOperation.value, firstOperand, Str(currentValue));
        if result.Throw? {
          outcome := Throw(result.message);
          return;
        }
        display := DisplayText(js, result.value);
        firstOperand := result.value;
        operationString := PendingAnnotation(js, firstOperand, op);
      } else if firstOperand == Null {
        firstOperand := Str(currentValue);
        operationString := PendingAnnotation(js, firstOperand, op);
      } else {
        operationString := PendingAnnotation(js, firstOperand, op);
      }
      currentOperation := Some(op);
      shouldResetDisplay := true;
      lastButtonWasOperator := true;
      outcome := Return(());
    }

    method HandleEquals()
      modifies this
      ensures Snapshot() == Equals(js, old(Snapshot()))
    {
      if currentOperation.None? || firstOperand == Null {
        return;
      }
      var currentValue := display;
      operationString := ToText(js, firstOperand) + " " + OperatorSymbol(currentOperation.value)
                         + " " + currentValue + " =";
      var result := Operate(js, currentOperation.value, firstOperand, Str(currentValue));
      if result.Return? {
        display := DisplayText(js, result.value);
        firstOperand := result.value;
        currentOperation := None;
        shouldResetDisplay := true;
        lastButtonWasOperator := false;
      } else {
        display := DisplayText(js, Str("Erreur: " + result.message));
        ClearCalculator();
      }
    }

    method HandleDecimal()
      modifies this
      ensures Snapshot() == EnterDecimal(old(Snapshot()))
    {
      if shouldResetDisplay {
        ResetDisplay();
      }
      if '.' !in display {
        display := display + ".";
      }
      lastButtonWasOperator := false;
    }

    method HandlePercentage()
      modifies this
      ensures Snapshot() == Percentage(js, old(Snapshot()))
    {
      var currentValue := js.parseFloat(display);
      display := DisplayText(js, Num(js.div(currentValue, Hundred)));
    }

    method HandleBackspace()
      modifies this
      ensures Snapshot() == Backspace(old(Snapshot()))
    {
      if |display| == 1 {
        display := "0";
      } else if |display| > 0 {
        display := display[..|display| - 1];
      }
    }
  }
}
