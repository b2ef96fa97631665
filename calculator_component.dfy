/** The Calculator component as an object: its four state fields, and one
    method per event handler that updates them in the order the handler
    calls its setters, so that a later write to a field overrides an earlier
    one. Each method is proved to produce the state the corresponding
    function of CalculatorState describes. */
module CalculatorComponent {
  import opened CalculatorState
  import opened CalculatorRuns

  class Calculator {
    var display: string
    var previousValue: Option<string>
    var operation: Option<string>
    var shouldReset: bool

    /** parseFloat, reading a display string as a number. */
    const parse: string -> real
    /** String(n), writing a number back as a display string. */
    const render: real -> string

    /** The four fields as one value. */
    function Snapshot(): State
      reads this
    {
      State(display, previousValue, operation, shouldReset)
    }

    /** Mounting the component: every field at its useState default. */
    constructor (parse: string -> real, render: real -> string)
      ensures Snapshot() == Initial()
      ensures this.parse == parse && this.render == render
    {
      this.parse := parse;
      this.render := render;
      display := "0";
      previousValue := None;
      operation := None;
      shouldReset := false;
    }

    method HandleNumber(num: string)
      modifies this`display, this`shouldReset
      ensures Snapshot() == AfterNumber(old(Snapshot()), num)
    {
      if shouldReset {
        shouldReset := false;
        display := num;
      } else {
        display := if display == "0" then num else display + num;
      }
    }

    method HandleDecimal()
      modifies this`display, this`shouldReset
      ensures Snapshot() == AfterDecimal(old(Snapshot()))
    {
      if shouldReset {
        display := "0.";
        shouldReset := false;
      } else if '.' !in display {
        display := display + ".";
      }
    }

    method HandleOperation(op: string)
      modifies this`display, this`previousValue, this`operation, this`shouldReset
      ensures Snapshot() == AfterOperation(old(Snapshot()), op, parse, render)
    {
      if previousValue.Some? && operation.Some? && !shouldReset {
        Calculate();
      } else {
        previousValue := Some(display);
      }
      operation := Some(op);
      shouldReset := true;
    }

    method Calculate()
      modifies this`display, this`previousValue, this`operation, this`shouldReset
      ensures Snapshot() == AfterCalculate(old(Snapshot()), parse, render)
    {
      if previousValue.None? || operation.None? {
        return;
      }
      var prev := parse(previousValue.value);
      var current := parse(display);
      var result := Apply(operation.value, prev, current);
      display := render(result);
      previousValue := None;
      operation := None;
      shouldReset := true;
    }

    method Clear()
      modifies this`display, this`previousValue, this`operation, this`shouldReset
      ensures Snapshot() == Initial()
    {
      display := "0";
      previousValue := None;
      operation := None;
      shouldReset := false;
    }

    method ToggleSign()
      modifies this`display
      ensures Snapshot() == AfterToggleSign(old(Snapshot()), parse, render)
    {
      var num := parse(display);
      display := render(num * -1.0);
    }

    method Percentage()
      modifies this`display
      ensures Snapshot() == AfterPercentage(old(Snapshot()), parse, render)
    {
      var num := parse(display);
      display := render(num / 100.0);
    }

    /** A button of the grid: each one calls exactly one handler. */
    method Press(k: Key)
      modifies this`display, this`previousValue, this`operation, this`shouldReset
      ensures Snapshot() == Step(old(Snapshot()), k, parse, render)
    {
      match k
      case Digit(d) => HandleNumber([d]);
      case Point => HandleDecimal();
      case Operator(op) => HandleOperation(op);
      case Equals => Calculate();
      case ClearKey => Clear();
      case Sign => ToggleSign();
      case Percent => Percentage();
    }
  }
}
