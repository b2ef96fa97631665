# Calculator state machine

A model of the calculator widget in `app_node/components/Calculator.tsx`. The component keeps four
state fields:

- `display`, the string shown;
- `previousValue`, the left operand, or none;
- `operation`, the pending operator, or none;
- `shouldReset`, which says the next digit starts a new number.

Seven event handlers update these fields: `handleNumber`, `handleDecimal`, `handleOperation`,
`calculate`, `clear`, `toggleSign` and `percentage`.

The project has three modules:

- `CalculatorState` (calculator_state.dfy) holds the state as a value. It has one pure function per
  handler (`AfterNumber`, `AfterDecimal`, ...) and the operator switch as a function `Apply` over `real`.
  The contracts of these functions state what each handler does.
- `CalculatorComponent` (calculator_component.dfy) holds the component as a class `Calculator`. The
  class has the four fields and one method per handler. Each method makes the handler's setter calls in
  source order, so a later write to a field overrides an earlier one. That ordering matters in
  `handleOperation`: it runs `calculate` and then sets the operation. Each method is proved to produce
  the state its pure function describes. Each method's `modifies` clause names only the fields the
  handler sets. So `toggleSign` and `percentage` provably change nothing but `display`.
- `CalculatorRuns` (calculator_runs.dfy) models the button grid as keys, and runs sequences of key
  presses. It proves these properties:
  - What digit entry shows.
  - What `=` computes after an operator and a second operand.
  - An invariant that every reachable state keeps.
  - What chained operators really do.

Numbers are not modelled as IEEE doubles. `parseFloat` and `String(n)` are the parameters `parse` and
`render` of the class and of the functions. The arithmetic is on `real`. The only assumption made about
`render` is that it yields a non-empty string with at most one point (`RendersWellFormed`), and only the
display invariant relies on it.

The model follows the code where it differs from the component's intended design:

- Chaining operators does not carry the result forward. When `handleOperation` resolves a pending
  operation, `calculate` clears `previousValue`, and only `operation` is set again. So `3 + 4 + 5 =`
  shows `5`, not `12` (`ThreePlusFourPlusFive`, `ChainedOperatorForgetsResult`).
- An operation can therefore be pending with no left operand (`OperationWithoutOperandReachable`).
  Only one direction of the intended pairing holds in every reachable state: a previous value is never
  kept without an operation (`Inv`, `ReachableInv`).

## Model

| member | source | states |
|---|---|---|
| CalculatorState.Apply | app_node/components/Calculator.tsx:53-68 | `+`, `-` and `×` give the sum, difference and product. `÷` gives the quotient, or 0 for a zero divisor. Any other operator leaves the result at 0. |
| CalculatorState.Typed | app_node/components/Calculator.tsx:24 | The display that digit entry after `"0"` produces is non-empty, and it is `"0"` or does not start with `'0'`, so it never starts with `"00"`. |
| CalculatorState.TypedZeroExactlyWhenAllZeros | app_node/components/Calculator.tsx:24 | Digit entry shows `"0"` exactly when every digit typed was `0`. Otherwise it shows the typed digits from the first non-zero one on. |
| CalculatorState.AfterNumber | app_node/components/Calculator.tsx:16-26 | After a reset the display becomes exactly the digit. Otherwise a lone `"0"` is replaced and any other display is extended by the digit. `0` on `"0"` stays `"0"`. The reset flag ends false, and the previous value and operation are unchanged. |
| CalculatorState.AfterDecimal | app_node/components/Calculator.tsx:28-35 | After a reset the display becomes `"0."`. A display with a point is left as it is, and one without gets a point appended. The display always ends with exactly one more point than it had if it had none, and unchanged otherwise. Reset ends false, and the other fields are unchanged. |
| CalculatorState.AfterCalculate | app_node/components/Calculator.tsx:48-74 | With either operand missing, nothing changes. Otherwise the display becomes `render(Apply(op, parse(previous), parse(display)))`, both pending fields are cleared and reset is set. Afterwards the two pending fields are never both present. |
| CalculatorState.AfterOperation | app_node/components/Calculator.tsx:37-46 | The operation always ends as `op`, with reset set. Outside a chain the display is kept and becomes the previous value. In a chain the display shows the computed result and the previous value ends empty. |
| CalculatorState.AfterToggleSign | app_node/components/Calculator.tsx:83-88 | The display becomes `render(-parse(display))`. The previous value, operation and reset flag are unchanged. |
| CalculatorState.AfterPercentage | app_node/components/Calculator.tsx:90-95 | The display becomes `render(parse(display) / 100)`. The previous value, operation and reset flag are unchanged. |
| CalculatorState.DecimalIdempotent | app_node/components/Calculator.tsx:28-35 | A second decimal point in a row changes nothing. |
| CalculatorState.OperatorReplacesOperator | app_node/components/Calculator.tsx:37-46 | Outside a chain, two operators in a row act as the second one alone. |
| CalculatorState.OperatorThenEquals | app_node/components/Calculator.tsx:37-74 | Outside a chain, an operator followed directly by `=` computes the display combined with itself. |
| CalculatorState.StripRemovesZeroPrefix | app_node/components/Calculator.tsx:24 | What stripping leading zeros removes is a prefix made only of zeros. |
| CalculatorComponent.Calculator.constructor | app_node/components/Calculator.tsx:7-13 | A new calculator shows `"0"` with nothing pending and reset false. |
| CalculatorComponent.Calculator.HandleNumber | app_node/components/Calculator.tsx:16-26 | It changes only `display` and `shouldReset`, and leaves the state `AfterNumber` describes. |
| CalculatorComponent.Calculator.HandleDecimal | app_node/components/Calculator.tsx:28-35 | It changes only `display` and `shouldReset`, and leaves the state `AfterDecimal` describes. |
| CalculatorComponent.Calculator.HandleOperation | app_node/components/Calculator.tsx:37-46 | It runs `Calculate` or captures the display, then sets the operation and reset, and the later writes win. It leaves the state `AfterOperation` describes. |
| CalculatorComponent.Calculator.Calculate | app_node/components/Calculator.tsx:48-74 | It leaves the state `AfterCalculate` describes, and returns early when an operand is missing. |
| CalculatorComponent.Calculator.Clear | app_node/components/Calculator.tsx:76-81 | Whatever the prior state, it ends with display `"0"`, nothing pending and reset false. |
| CalculatorComponent.Calculator.ToggleSign | app_node/components/Calculator.tsx:83-88 | It modifies only `display`, and leaves the state `AfterToggleSign` describes. |
| CalculatorComponent.Calculator.Percentage | app_node/components/Calculator.tsx:90-95 | It modifies only `display`, and leaves the state `AfterPercentage` describes. |
| CalculatorComponent.Calculator.Press | app_node/components/Calculator.tsx:97-121 | Each button of the grid calls exactly the one handler that `Step` names. |
| CalculatorRuns.TypingAppends | app_node/components/Calculator.tsx:16-26 | Typing digits onto a display that shows `Typed(p)` leads to `Typed(p + ds)`. No other field changes. |
| CalculatorRuns.DigitEntryAfterClear | app_node/components/Calculator.tsx:76-81 | From the cleared state, typing digits shows them without leading zeros, or `"0"` when all of them are zeros. |
| CalculatorRuns.FreshOperand | app_node/components/Calculator.tsx:19-21 | After an operator or a result, a run of digits starts a new number. That number is shown without leading zeros, and the reset flag ends false. |
| CalculatorRuns.OperatorOperandEquals | app_node/components/Calculator.tsx:37-74 | Outside a chain, the sequence operator, digits, `=` shows `op` applied to the old display and the typed number, and leaves nothing pending. |
| CalculatorRuns.ChainedOperatorForgetsResult | app_node/components/Calculator.tsx:37-74 | In a chain, the sequence operator, digits, `=` shows only the typed digits. The chained result is lost, and the operation stays pending with no left operand. |
| CalculatorRuns.SevenTimesEight | app_node/components/Calculator.tsx:37-74 | `7 × 8 =` shows `render(parse("7") * parse("8"))`. |
| CalculatorRuns.ThreePlusFourPlusFive | app_node/components/Calculator.tsx:37-74 | `3 + 4 + 5 =` ends with display `"5"`, no previous value, operation `+` and reset false. |
| CalculatorRuns.OperationWithoutOperandReachable | app_node/components/Calculator.tsx:37-46 | After `3 + 4 +`, the operation is `+`, the previous value is empty and the display shows the rendered `3 + 4`. |
| CalculatorRuns.StepKeepsInv | app_node/components/Calculator.tsx:16-95 | Every handler keeps the invariant `Inv`: a non-empty display with at most one point, a previous value only together with an operation, and only the grid's operators. |
| CalculatorRuns.RunKeepsInv | app_node/components/Calculator.tsx:16-95 | Any sequence of the grid's buttons keeps `Inv`. |
| CalculatorRuns.ReachableInv | app_node/components/Calculator.tsx:7-121 | Every state reachable from mount satisfies `Inv`, so the display never holds two decimal points. |

## Left out

- IEEE-754 doubles and JavaScript number formatting are not modelled. `parseFloat` and `String(n)` are the uninterpreted parameters `parse` and `render`, and the arithmetic is on `real`. So NaN, the infinities, negative zero (`current !== 0` also treats `-0` as zero) and rounding are not captured. Neither is any fact that depends on formatting, such as `toggleSign` twice giving back the same string, or `"50"` becoming `"0.5"` after `percentage`.
- The claim that `display` is always parseable as a number is not stated, because `parse` is abstract.
- React mechanics are not modelled. Each handler is one atomic sequential update, without `useState` batching, functional updaters, or `useCallback` memoisation and the closures it keeps.
- JSX rendering is not modelled: the layout, the styling and the secondary display line. Of the button grid, only which handler each button calls is kept, in `Press` and `Step`.
- app_node/app/calculator/page.tsx is not part of this model. It is a static page around the component.
- `handleNumber` accepts any string, as in the source. Only the lemmas about key sequences restrict digits to `'0'`..`'9'`, because those are the keys the grid has.
