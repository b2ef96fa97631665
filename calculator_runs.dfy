/** Sequences of button presses. Each button of the component's grid calls
    one handler; running a sequence of presses composes the handlers'
    transitions. The lemmas here state what digit entry shows, what `=`
    computes after an operator, which invariants every reachable state keeps,
    and what chained operators actually do. */
module CalculatorRuns {
  import opened CalculatorState

  /** The buttons of the grid. */
  datatype Key =
    | Digit(d: char)        // '0' .. '9': handleNumber
    | Point                 // '.': handleDecimal
    | Operator(op: string)  // '+' '-' '×' '÷': handleOperation
    | Equals                // '=': calculate
    | ClearKey              // 'C': clear
    | Sign                  // '±': toggleSign
    | Percent               // '%': percentage

  /** A key the grid actually has: a decimal digit or one of the four operators. */
  predicate IsButton(k: Key) {
    match k
    case Digit(d) => '0' <= d <= '9'
    case Operator(op) => op in Operators
    case _ => true
  }

  predicate ButtonKeys(keys: seq<Key>) {
    forall i :: 0 <= i < |keys| ==> IsButton(keys[i])
  }

  /** The handler a key calls, applied to the state. */
  function Step(s: State, k: Key, parse: string -> real, render: real -> string): State {
    match k
    case Digit(d) => AfterNumber(s, [d])
    case Point => AfterDecimal(s)
    case Operator(op) => AfterOperation(s, op, parse, render)
    case Equals => AfterCalculate(s, parse, render)
    case ClearKey => Initial()
    case Sign => AfterToggleSign(s, parse, render)
    case Percent => AfterPercentage(s, parse, render)
  }

  /** The state after pressing `keys` in order. */
  function Run(s: State, keys: seq<Key>, parse: string -> real, render: real -> string): State
    decreases |keys|
  {
    if keys == [] then s else Run(Step(s, keys[0], parse, render), keys[1..], parse, render)
  }

  /** The digit keys for the characters of `ds`. */
  function Digits(ds: string): (keys: seq<Key>)
    ensures |keys| == |ds|
    ensures forall i :: 0 <= i < |ds| ==> keys[i] == Digit(ds[i])
  {
    if ds == [] then [] else [Digit(ds[0])] + Digits(ds[1..])
  }

  lemma {:induction false} RunAppend(s: State, a: seq<Key>, b: seq<Key>, parse: string -> real, render: real -> string)
    ensures Run(s, a + b, parse, render) == Run(Run(s, a, parse, render), b, parse, render)
    decreases |a|
  {
    if a == [] {
      assert a + b == b;
    } else {
      assert (a + b)[0] == a[0] && (a + b)[1..] == a[1..] + b;
      RunAppend(Step(s, a[0], parse, render), a[1..], b, parse, render);
    }
  }

  /** Stripping leading zeros from `a + b` strips them from `a` only, unless
      `a` is all zeros. */
  lemma {:induction false} StripAppend(a: string, b: string)
    ensures StripLeadingZeros(a) != [] ==> StripLeadingZeros(a + b) == StripLeadingZeros(a) + b
    ensures StripLeadingZeros(a) == [] ==> StripLeadingZeros(a + b) == StripLeadingZeros(b)
  {
    if a != [] {
      assert (a + b)[0] == a[0] && (a + b)[1..] == a[1..] + b;
      if a[0] == '0' {
        StripAppend(a[1..], b);
      }
    } else {
      assert a + b == b;
    }
  }

  /** One more digit on a display showing Typed(p) shows Typed(p + [c]). */
  lemma TypedAppend(s: State, p: string, c: char)
    requires !s.shouldReset && s.display == Typed(p)
    ensures AfterNumber(s, [c]) == s.(display := Typed(p + [c]))
  {
    StripAppend(p, [c]);
    if StripLeadingZeros(p) == [] {
      assert StripLeadingZeros([c]) == if c == '0' then [] else [c];
    }
  }

  lemma RunDigitsCons(s: State, ds: string, parse: string -> real, render: real -> string)
    requires ds != []
    ensures Run(s, Digits(ds), parse, render) == Run(AfterNumber(s, [ds[0]]), Digits(ds[1..]), parse, render)
  {
  }

  lemma ConcatCons(p: string, ds: string)
    requires ds != []
    ensures p + [ds[0]] + ds[1..] == p + ds
  {
  }

  lemma TypedSingle(c: char)
    ensures Typed([c]) == [c]
  {
    assert StripLeadingZeros([c]) == if c == '0' then [] else [c];
  }

  /** Typing digits onto a display that shows Typed(p) shows Typed(p + ds):
      digits are appended, a lone "0" is replaced, and no other field changes. */
  lemma {:induction false} TypingAppends(s: State, p: string, ds: string, parse: string -> real, render: real -> string)
    requires !s.shouldReset && s.display == Typed(p)
    ensures Run(s, Digits(ds), parse, render) == s.(display := Typed(p + ds))
    decreases |ds|
  {
    if ds == [] {
      assert p + ds == p;
    } else {
      var c, t := ds[0], s.(display := Typed(p + [ds[0]]));
      TypedAppend(s, p, c);
      RunDigitsCons(s, ds, parse, render);
      TypingAppends(t, p + [c], ds[1..], parse, render);
      ConcatCons(p, ds);
    }
  }

  /** From a cleared calculator, typing digits shows them without leading zeros. */
  lemma DigitEntryAfterClear(ds: string, parse: string -> real, render: real -> string)
    ensures Run(Initial(), Digits(ds), parse, render) == Initial().(display := Typed(ds))
  {
    TypingAppends(Initial(), [], ds, parse, render);
    assert [] + ds == ds;
  }

  /** After an operator or a result, typing a non-empty run of digits starts
      a fresh number. */
  lemma FreshOperand(s: State, ds: string, parse: string -> real, render: real -> string)
    requires s.shouldReset && ds != []
    ensures Run(s, Digits(ds), parse, render) == s.(display := Typed(ds), shouldReset := false)
  {
    var c := ds[0];
    var t := s.(display := [c], shouldReset := false);
    RunDigitsCons(s, ds, parse, render);
    TypedSingle(c);
    TypingAppends(t, [c], ds[1..], parse, render);
    ConcatCons([], ds);
  }

  /** Choosing an operator with nothing to resolve, typing a second operand
      and pressing `=` shows the operator applied to the two numbers and
      leaves nothing pending. */
  lemma OperatorOperandEquals(s: State, op: string, ds: string, parse: string -> real, render: real -> string)
    requires !Chaining(s) && ds != []
    ensures Run(s, [Operator(op)] + Digits(ds) + [Equals], parse, render)
            == State(render(Apply(op, parse(s.display), parse(Typed(ds)))), None, None, true)
  {
    var t := AfterOperation(s, op, parse, render);
    RunAppend(s, [Operator(op)] + Digits(ds), [Equals], parse, render);
    RunAppend(s, [Operator(op)], Digits(ds), parse, render);
    FreshOperand(t, ds, parse, render);
  }

  /** An operator pressed while chaining drops the left operand, so the
      following operand and `=` show only that operand: the chained result
      is not carried forward. */
  lemma ChainedOperatorForgetsResult(s: State, op: string, ds: string, parse: string -> real, render: real -> string)
    requires Chaining(s) && ds != []
    ensures Run(s, [Operator(op)] + Digits(ds) + [Equals], parse, render)
            == State(Typed(ds), None, Some(op), false)
  {
    var t := AfterOperation(s, op, parse, render);
    RunAppend(s, [Operator(op)] + Digits(ds), [Equals], parse, render);
    RunAppend(s, [Operator(op)], Digits(ds), parse, render);
    FreshOperand(t, ds, parse, render);
  }

  /** `7 × 8 =` shows the product of the two operands. */
  lemma SevenTimesEight(parse: string -> real, render: real -> string)
    ensures Run(Initial(), [Digit('7'), Operator("×"), Digit('8'), Equals], parse, render).display
            == render(parse("7") * parse("8"))
  {
  }

  /** `3 + 4 + 5 =` shows "5", not the sum 12: the second `+` computes 3 + 4
      but clears the left operand, so `=` finds nothing to compute. */
  lemma ThreePlusFourPlusFive(parse: string -> real, render: real -> string)
    ensures Run(Initial(), [Digit('3'), Operator("+"), Digit('4'), Operator("+"), Digit('5'), Equals], parse, render)
            == State("5", None, Some("+"), false)
  {
  }

  /** An operation pending without its left operand is reachable: after
      `3 + 4 +` the operation is set and the previous value is not. */
  lemma OperationWithoutOperandReachable(parse: string -> real, render: real -> string)
    ensures var s := Run(Initial(), [Digit('3'), Operator("+"), Digit('4'), Operator("+")], parse, render);
            s.previousValue.None? && s.operation == Some("+") &&
            s.display == render(parse("3") + parse("4"))
  {
  }

  /** String(n) never yields an empty string or one with two points. */
  ghost predicate RendersWellFormed(render: real -> string) {
    forall x :: WellFormedDisplay(render(x))
  }

  /** What every reachable state keeps: a well-formed display, a previous
      value only together with an operation (the converse does not hold, see
      OperationWithoutOperandReachable), and only the grid's operators. */
  predicate Inv(s: State) {
    WellFormedDisplay(s.display) &&
    (s.previousValue.Some? ==> s.operation.Some? && WellFormedDisplay(s.previousValue.value)) &&
    (s.operation.Some? ==> s.operation.value in Operators)
  }

  lemma StepKeepsInv(s: State, k: Key, parse: string -> real, render: real -> string)
    requires RendersWellFormed(render) && Inv(s) && IsButton(k)
    ensures Inv(Step(s, k, parse, render))
  {
  }

  lemma {:induction false} RunKeepsInv(s: State, keys: seq<Key>, parse: string -> real, render: real -> string)
    requires RendersWellFormed(render) && Inv(s) && ButtonKeys(keys)
    ensures Inv(Run(s, keys, parse, render))
    decreases |keys|
  {
    if keys != [] {
      StepKeepsInv(s, keys[0], parse, render);
      RunRestButtons(keys);
      RunKeepsInv(Step(s, keys[0], parse, render), keys[1..], parse, render);
    }
  }

  lemma RunRestButtons(keys: seq<Key>)
    requires ButtonKeys(keys) && keys != []
    ensures IsButton(keys[0]) && ButtonKeys(keys[1..])
  {
  }

  /** Every state the buttons can reach from mount keeps Inv: in particular
      the display never holds two decimal points. */
  lemma ReachableInv(keys: seq<Key>, parse: string -> real, render: real -> string)
    requires RendersWellFormed(render) && ButtonKeys(keys)
    ensures Inv(Run(Initial(), keys, parse, render))
    ensures DotCount(Run(Initial(), keys, parse, render).display) <= 1
  {
    assert multiset(Initial().display)['.'] == 0;
    RunKeepsInv(Initial(), keys, parse, render);
  }
}
