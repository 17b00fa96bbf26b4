# Calculator input state machine

A Dafny model of the interaction logic of the calcumate calculator's `App`
component (frontend/src/App.tsx). The component keeps five pieces of
session state: the display text, the first operand, the pending operator,
the "waiting for second operand" flag and the "calculating" flag. Four key
handlers change that state: a digit key, the decimal-point key, the clear
key and an operator key. The arithmetic itself is done by a remote
`calculate(operator, a, b)` call that the component awaits.

The model has two modules:

- `Display` (display.dfy): what a digit key and the decimal-point key do to
  the display while a number is being typed (`EnterDigit`, `EnterDecimal`).
  It also defines the shape of a well-formed typed number (`IsNumeral`) and
  proves that both keys keep it. Typing a digit string from the initial
  `"0"` is proved to show those digits with their leading zeros dropped.
- `Calculator` (calculator.dfy): the class `App<Num>` with the five state
  fields and one method per handler. Each method states the whole new state
  and keeps the invariant `Valid()`. The invariant says three things:
  - a held first operand always has an operator beside it;
  - while a number is being typed, the display is a well-formed number;
  - no evaluation is in flight between key presses.

  Four client methods replay typical key sequences (digit, operator, digit,
  operator; an operator on a fresh session; two clears; two decimal points),
  using only the handlers' contracts.

How the parts outside the component are modelled:

- The number type is the class's type parameter `Num`.
- `parseFloat` and `Number.prototype.toString` are the arrow-typed constants
  `parse` and `show`, fixed when the session is created. Beyond being
  functions, nothing is assumed about them.
- The remote evaluator is the `reply: Result<Num>` parameter of
  `PerformOperation`. `Result` is either `Ok(result)` or `Failure`, where a
  failure is a thrown error of any kind. The ghost field `calls` records the
  arguments of every evaluator call, so "exactly one call with these
  arguments" can be stated.
- `else if (operator)` (App.tsx:67) tests JavaScript truthiness, and the
  empty string is false there. `IsTruthy` models that test. So
  `PerformOperation` has a third branch for a session whose pending operator
  is `""`: no call is made, and only the flag and the operator are updated.
  The keypad never sends `""`, but the handler accepts any string.
- The keypad (App.tsx:102-108) passes `inputDigit` only the single
  characters `'0'` to `'9'`. So the model's `InputDigit` takes a `char` and
  requires it to be a digit.

## Model

| member | source | states |
|---|---|---|
| Calculator.App.constructor | frontend/src/App.tsx:29-33 | A fresh session shows "0", holds no operand and no operator, is neither waiting nor calculating, has made no evaluator call, and satisfies the invariant. |
| Calculator.App.InputDigit | frontend/src/App.tsx:35-42 | While waiting, the display becomes exactly the digit and the flag is cleared. Otherwise a display of "0" is replaced by the digit and any other display gets the digit appended. The operand, operator, calculating flag and call log are unchanged, and the invariant is kept. |
| Calculator.App.InputDecimal | frontend/src/App.tsx:44-53 | While waiting, the display becomes "0." and the flag is cleared. Otherwise a point is appended only if the display has none, and the display is otherwise unchanged. Nothing else changes, and the invariant is kept. |
| Calculator.App.Clear | frontend/src/App.tsx:55-60 | The display is "0", the operand and operator are absent and the flag is false, whatever the state before. The calculating flag and call log are untouched. The result satisfies the invariant exactly when no evaluation is in flight. |
| Calculator.App.PerformOperation | frontend/src/App.tsx:62-82 | With no operand held, the operand becomes parse(display) and no call is made. With an operand and a truthy operator, exactly one call (operator, operand, parse(display)) is logged. On success the display becomes show(result) and the operand becomes the result; on failure the display becomes "Error" and the operand is kept. With the operator "", nothing but the tail changes. Every branch ends waiting, with the new key as operator and not calculating, and the invariant is kept. |
| Calculator.App.Shown | frontend/src/App.tsx:91 | Between key presses the field shows the display itself, never the "Calculating..." label, because every handler is one atomic step. |
| Calculator.OneCalculation | frontend/src/App.tsx:35-82 | From a fresh session, digit x, operator op, digit y, operator next makes exactly one call (op, parse("x"), parse("y")) when op is non-empty. Its answer then becomes the display and the operand, or the display shows "Error" and the operand stays parse("x"). The pending operator ends as next. |
| Calculator.OperatorOnFreshSession | frontend/src/App.tsx:62-66 | Pressing an operator on a fresh session makes parse("0") the first operand, keeps the display "0", leaves the session waiting, and makes no evaluator call. |
| Calculator.ClearTwice | frontend/src/App.tsx:55-60 | From any state, the display, operand, operator and flag after the second clear equal those after the first ("0", none, none, false), and they are the session's final fields. |
| Calculator.DecimalTwice | frontend/src/App.tsx:44-53 | From any valid state, a second decimal-point press right after a first leaves the display, operand, operator and flag exactly as the first press left them; the display then holds a point and a number is being typed. |
| Display.EnterDigit | frontend/src/App.tsx:40 | The key pressed is always the last character. Any display other than the lone "0" is kept as a prefix, and "0" gives way to the key. |
| Display.EnterDecimal | frontend/src/App.tsx:50-52 | The result always contains a point. A display that already has one is returned unchanged; any other display is kept as a prefix and followed by exactly one point. |
| Display.EnterDigitKeepsNumeral | frontend/src/App.tsx:40 | A digit key turns a well-formed number into a well-formed number: digits only, at most one point, starting with a digit, no leading zero before another digit. |
| Display.EnterDecimalKeepsNumeral | frontend/src/App.tsx:50-52 | The decimal-point key turns a well-formed number into a well-formed number; in particular it never creates a second point. |
| Display.EnterDecimalTwice | frontend/src/App.tsx:50-52 | A second decimal point right after a first one changes nothing (idempotence). |
| Display.OccurrencesAppend | frontend/src/App.tsx:50-51 | Appending a character adds one to its count of occurrences and leaves the count of every other character unchanged. |
| Display.OccurrencesZero | frontend/src/App.tsx:50 | A count of zero points is the same as `includes('.')` being false. |
| Display.TypeDigitsAppends | frontend/src/App.tsx:40 | Once the display is non-empty and not "0", a run of digit keys is simply appended to it. |
| Display.TypeDigitsFromZero | frontend/src/App.tsx:29-40 | Typing a digit string from the initial "0" shows that string with its leading zeros dropped, or "0" if it has nothing else. |
| Display.TypeDigitsKeepsNumeral | frontend/src/App.tsx:40 | Any run of digit keys keeps a well-formed number well formed. |
| Display.DropLeadingZeros | frontend/src/App.tsx:40 | The result is empty or does not start with "0". |

## Left out

- The styled MUI components and the JSX layout (App.tsx:6-26, 84-173) are presentation only. The exceptions are the line-91 display rule, which is `Shown`, and the keypad's choice of keys, which gives `InputDigit` its precondition.
- The implementation of `backend.calculate` and its transport (App.tsx:4, 70) are a remote call. The model reduces them to the success/failure answer `reply` and the ghost call log.
- The floating-point meaning of `parseFloat` and `toString` (App.tsx:63, 71) is not modelled. Both are arbitrary functions `parse` and `show`, so no IEEE arithmetic and no NaN.
- The `await` in `performOperation` is not modelled as a suspension point. Each handler runs as one atomic step, so the model does not capture a key pressed while `calculating` is true racing with the pending call. For the same reason `calculating` is always false between steps.
- React's deferred `setState` batching is not modelled. Each handler reads the state before it writes it, so updating the fields in sequence gives the same result.
- Calculator.App.Shown: states only the between-presses value (the display). The "Calculating..." label can appear only during the await, which the model does not have.
