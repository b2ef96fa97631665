/** The calculator's state and what each event handler does to it, as pure
    functions on values. The class in calculator_component.dfy performs the
    same updates field by field and is proved to agree with these functions.

    Numbers are not IEEE doubles here: reading the display as a number
    (parseFloat) and writing a number back (String(n)) are parameters, and the
    arithmetic is on `real`. */
module CalculatorState {

  datatype Option<T> = None | Some(value: T)

  /** The four fields the component keeps with useState. */
  datatype State = State(
    display: string,
    previousValue: Option<string>,
    operation: Option<string>,
    shouldReset: bool)

  /** The state at mount, and the one `clear` restores. */
  function Initial(): State {
    State("0", None, None, false)
  }

  /** The operator labels the buttons pass to handleOperation. */
  const Operators: set<string> := {"+", "-", "×", "÷"}

  /** The operator switch of `calculate`: the four operators, a zero divisor
      giving 0, and any other operator leaving the result at its initial 0. */
  function Apply(op: string, a: real, b: real): (r: real)
    ensures op == "+" ==> r - b == a
    ensures op == "-" ==> r + b == a
    ensures op == "×" ==> r == a * b
    ensures op == "÷" && b != 0.0 ==> r * b == a
    ensures op == "÷" && b == 0.0 ==> r == 0.0
    ensures op !in Operators ==> r == 0.0
  {
    if op == "+" then a + b
    else if op == "-" then a - b
    else if op == "×" then a * b
    else if op == "÷" then (if b != 0.0 then a / b else 0.0)
    else 0.0
  }

  /** The number of decimal points in a display string. */
  function DotCount(s: string): nat {
    multiset(s)['.']
  }

  /** What a display string must look like: non-empty, at most one point. */
  predicate WellFormedDisplay(s: string) {
    s != [] && DotCount(s) <= 1
  }

  /** `ds` without its leading '0' characters. */
  function StripLeadingZeros(ds: string): (r: string)
    ensures r == [] || r[0] != '0'
  {
    if ds != [] && ds[0] == '0' then StripLeadingZeros(ds[1..]) else ds
  }

  /** Stripping removes a prefix made of zeros and nothing else. */
  lemma {:induction false} StripRemovesZeroPrefix(ds: string)
    ensures var r := StripLeadingZeros(ds);
            |r| <= |ds| && r == ds[|ds| - |r|..] &&
            forall i :: 0 <= i < |ds| - |r| ==> ds[i] == '0'
  {
    if ds != [] && ds[0] == '0' {
      StripRemovesZeroPrefix(ds[1..]);
    }
  }

  /** What digit entry shows for the characters `ds` typed after "0": the
      characters without leading zeros, or "0" when nothing else is left. */
  function Typed(ds: string): (r: string)
    ensures r != []
    ensures r == "0" || r[0] != '0'
  {
    var t := StripLeadingZeros(ds);
    if t == [] then "0" else t
  }

  /** The display shows "0" exactly when every digit typed was a zero;
      otherwise it shows the digits from the first non-zero one on. */
  lemma TypedZeroExactlyWhenAllZeros(ds: string)
    ensures Typed(ds) == "0" <==> forall i :: 0 <= i < |ds| ==> ds[i] == '0'
    ensures Typed(ds) != "0" ==> exists k :: 0 <= k < |ds| && ds[k] != '0' && Typed(ds) == ds[k..] &&
                                  forall i :: 0 <= i < k ==> ds[i] == '0'
  {
    StripRemovesZeroPrefix(ds);
    var r := StripLeadingZeros(ds);
    if r != [] {
      assert ds[|ds| - |r|] == r[0];
    }
  }

  /** The condition under which handleOperation resolves the pending
      operation first: both operands known and a digit typed since. */
  predicate Chaining(s: State) {
    s.previousValue.Some? && s.operation.Some? && !s.shouldReset
  }

  /** handleNumber(num). */
  function AfterNumber(s: State, num: string): (r: State)
    ensures r.previousValue == s.previousValue && r.operation == s.operation
    ensures !r.shouldReset
    ensures s.shouldReset ==> r.display == num
    ensures !s.shouldReset && s.display == "0" ==> r.display == num
    ensures !s.shouldReset && s.display != "0" ==>
              |r.display| == |s.display| + |num| &&
              r.display[..|s.display|] == s.display && r.display[|s.display|..] == num
    ensures s.display == "0" && num == "0" ==> r.display == "0"
  {
    if s.shouldReset then s.(display := num, shouldReset := false)
    else s.(display := if s.display == "0" then num else s.display + num)
  }

  /** handleDecimal(). */
  function AfterDecimal(s: State): (r: State)
    ensures r.previousValue == s.previousValue && r.operation == s.operation
    ensures !r.shouldReset
    ensures s.shouldReset ==> r.display == "0."
    ensures !s.shouldReset && '.' in s.display ==> r == s
    ensures !s.shouldReset && '.' !in s.display ==> r.display == s.display + "."
    ensures '.' in r.display
    ensures DotCount(r.display) == if s.shouldReset || '.' !in s.display then 1 else DotCount(s.display)
  {
    if s.shouldReset then s.(display := "0.", shouldReset := false)
    else if '.' !in s.display then s.(display := s.display + ".")
    else s
  }

  /** calculate(): a no-op unless both operands are known; otherwise the
      result replaces the display and nothing is left pending. */
  function AfterCalculate(s: State, parse: string -> real, render: real -> string): (r: State)
    ensures s.previousValue.None? || s.operation.None? ==> r == s
    ensures s.previousValue.Some? && s.operation.Some? ==>
              r.display == render(Apply(s.operation.value, parse(s.previousValue.value), parse(s.display))) &&
              r.previousValue.None? && r.operation.None? && r.shouldReset
    ensures r.previousValue.None? || r.operation.None?
  {
    match (s.previousValue, s.operation)
    case (Some(prev), Some(op)) =>
      State(render(Apply(op, parse(prev), parse(s.display))), None, None, true)
    case _ => s
  }

  /** handleOperation(op): either calculate() or capture the display, then
      set the operation and the reset flag; the later writes win. */
  function AfterOperation(s: State, op: string, parse: string -> real, render: real -> string): (r: State)
    ensures r.operation == Some(op) && r.shouldReset
    ensures !Chaining(s) ==> r.display == s.display && r.previousValue == Some(s.display)
    ensures Chaining(s) ==> r.previousValue.None?
    ensures Chaining(s) ==>
              r.display == render(Apply(s.operation.value, parse(s.previousValue.value), parse(s.display)))
  {
    var t := if Chaining(s) then AfterCalculate(s, parse, render)
             else s.(previousValue := Some(s.display));
    t.(operation := Some(op), shouldReset := true)
  }

  /** toggleSign(): only the display changes. */
  function AfterToggleSign(s: State, parse: string -> real, render: real -> string): (r: State)
    ensures r.previousValue == s.previousValue && r.operation == s.operation
    ensures r.shouldReset == s.shouldReset
    ensures r.display == render(-parse(s.display))
  {
    s.(display := render(parse(s.display) * -1.0))
  }

  /** percentage(): only the display changes. */
  function AfterPercentage(s: State, parse: string -> real, render: real -> string): (r: State)
    ensures r.previousValue == s.previousValue && r.operation == s.operation
    ensures r.shouldReset == s.shouldReset
    ensures r.display == render(parse(s.display) / 100.0)
  {
    s.(display := render(parse(s.display) / 100.0))
  }

  /** A second point is ignored: handleDecimal is idempotent. */
  lemma DecimalIdempotent(s: State)
    ensures AfterDecimal(AfterDecimal(s)) == AfterDecimal(s)
  {
  }

  /** Two operators in a row, outside a chain, act as the second alone. */
  lemma OperatorReplacesOperator(s: State, op1: string, op2: string, parse: string -> real, render: real -> string)
    requires !Chaining(s)
    ensures AfterOperation(AfterOperation(s, op1, parse, render), op2, parse, render)
            == AfterOperation(s, op2, parse, render)
  {
  }

  /** Whatever the display was, choosing an operator and then `=` computes
      `d op d` when no operation was pending. */
  lemma OperatorThenEquals(s: State, op: string, parse: string -> real, render: real -> string)
    requires !Chaining(s)
    ensures AfterCalculate(AfterOperation(s, op, parse, render), parse, render)
            == State(render(Apply(op, parse(s.display), parse(s.display))), None, None, true)
  {
  }
}
