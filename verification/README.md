# Calculator input state machine

A model of the key-press state machine of a browser calculator (`script.js`).
The calculator keeps three text registers — the input buffer `currentInput`,
the pending `operator` and the first operand `previousInput` — together with a
numeric `memory` register and a `history` of completed calculations that a push
trims back to 10 entries. Each button's `data-value` is routed to one handler:
`C` clears, `=` evaluates, `+ - * /` set the pending operator and every other
value is appended to the buffer.

The project is layered as the program is:

- `wrappers.dfy` — `Option`, the result of the abstract evaluator.
- `keys.dfy` (module `Keys`) — the dispatch of a button value to its command and
  the display rule (`value || '0'`).
- `decimal.dfy` (module `Decimal`) — counting decimal separators in the buffer.
- `history.dfy` (module `History`) — the bounded push of `saveHistory` and what a
  run of pushes keeps.
- `machine.dfy` (module `Machine`) — the state as a value `CalcState`, one
  function per handler, the dispatch of a single press (`Step`) and of a
  sequence of presses (`Run`), and the lemmas about them.
- `calculator.dfy` (module `App`) — class `Calculator` whose fields are the
  module-level variables and whose methods update them in place; each method's
  postcondition ties the new `State()` to its transition function applied to
  the old one: `ClearDisplay` to `Machine.Clear`, `CalculateResult` to
  `Machine.Calculate`, `SetOperator` to `Machine.SetOperator`, `AppendToInput`
  to `Machine.Append`, `Undo` to `Machine.Undo` and `Press` to `Machine.Step`;
  `SaveHistory` sets the history to `History.Pushed` of the old one, and the
  constructor `Load` takes the stored values.

The arithmetic is abstract. `safeEvaluate` together with `toString` is a
parameter `eval: string -> Option<string>` applied to the expression text
`previous + " " + operator + " " + current`, exactly the text the program
builds: `Some(r)` is a result that is neither `null` nor `undefined`, whose
text is `r`; `None` is a thrown exception, `null` or `undefined`. The memory
register is a JavaScript number, held as its 64-bit pattern and never
inspected.

Behaviours of the program that the model keeps as they are:

- Division by zero is not an error. Only `null` and `undefined` are rejected
  (script.js:55), so `5 / 0` yields `Infinity`, which is stored in the buffer
  and logged (`Machine.DivisionByZeroIsLogged`).
- On a failed evaluation the program writes `Error` to the display and then
  calls `clearDisplay`, whose `updateDisplay('')` overwrites it with `0` in the
  same handler (script.js:66-67). The state after a failure is exactly the
  state after `clearDisplay` (`Machine.CalculateFails`).
- The history is trimmed by at most one `shift` per push (script.js:149): a
  history loaded from storage with more than 10 entries stays that long.
  The bound is therefore proved for histories that start within it.
- The single-decimal-point rule only inspects the token `"."`. A button value
  that itself contains a `'.'` (for instance `"1.5"`) is appended unchecked, so
  the invariant is proved for values that are `"."` or contain no `'.'`, and for
  evaluators whose result text has at most one `'.'` (as a number's `toString`
  does).

## Model

| member | source | states |
|---|---|---|
| `Keys.Dispatch` | script.js:21-37 | "C" goes to clear, "=" to evaluate, exactly the four operator symbols to setOperator with that symbol, and every other value to appendToInput with that value |
| `Keys.DisplayText` | script.js:142-144 | the shown text is never empty; a non-empty value is shown as is and an empty one as "0" |
| `Keys.DisplayTextConflatesOnlyEmptyAndZero` | script.js:143 | two different buffers look the same on the display exactly when they are "" and "0" |
| `Decimal.DotCountPositiveIffContainsDot` | script.js:84 | the `includes('.')` test agrees with counting: a string contains '.' iff its dot count is positive |
| `History.PushedEffect` | script.js:147-149 | below 10 entries a push appends; at 10 or more it drops exactly the oldest entry and keeps the rest in order; the pushed entry is the newest |
| `History.PushedBounded` | script.js:147-149 | a history of at most 10 entries still has at most 10 after a push, and exactly min(old length + 1, 10) |
| `History.PushAllKeepsNewest` | script.js:147-149 | from a history within the bound, any run of pushes leaves the newest entries of old history followed by the pushed ones, in order, at most 10 |
| `History.ElevenEntriesDropTheFirst` | script.js:147-149 | after 11 pushes onto an empty history the first entry is gone and entries 2 to 11 remain in order |
| `Machine.ClearEffect` | script.js:42-48 | clearDisplay empties buffer, operator and previous operand and never changes memory or history |
| `Machine.AppendEffect` | script.js:83-88 | "." on a buffer that already has a '.' changes nothing; any other value is appended to the buffer and nothing else changes |
| `Machine.SetOperatorEffect` | script.js:73-80 | with an empty buffer nothing changes; otherwise the buffer moves to previousInput, the operator is recorded and the buffer is emptied; memory and history never change |
| `Machine.UndoEffect` | script.js:91-95 | undo removes exactly the last character, leaves "" as "" (idempotent there) and changes no other field |
| `Machine.CalculateGated` | script.js:52 | unless buffer, previous operand and operator are all non-empty, "=" changes nothing |
| `Machine.CalculateSucceeds` | script.js:54-61 | on a result r the history gains the newest entry "prev op cur = r" through the bounded push, the buffer becomes r, operator and previous operand are emptied, memory is kept |
| `Machine.CalculateFails` | script.js:53-68 | on a failed evaluation the state equals the state after clearDisplay; history and memory are unchanged |
| `Machine.SixDividedByFour` | script.js:54-61 | with 6, / and 4 and the evaluation of "6 / 4" to 1.5, the buffer is "1.5" and the newest history entry is "6 / 4 = 1.5" |
| `Machine.DivisionByZeroIsLogged` | script.js:55-57 | an evaluation of "5 / 0" to Infinity is not treated as an error: the state is not the cleared one, the buffer is "Infinity" and "5 / 0 = Infinity" is logged |
| `Machine.AppendKeepsOneDot` | script.js:84-85 | appending "." or a value without '.' keeps a buffer with at most one '.' at at most one |
| `Machine.UndoKeepsOneDot` | script.js:92 | undo keeps the at-most-one-'.' invariant |
| `Machine.SetOperatorKeepsOneDot` | script.js:73-80 | setOperator keeps the at-most-one-'.' invariant |
| `Machine.ClearKeepsOneDot` | script.js:42-45 | after clearDisplay the buffer has no '.' |
| `Machine.StepKeepsOneDot` | script.js:21-37 | any single press of a plain button value keeps the invariant, given results with at most one '.' |
| `Machine.RunKeepsOneDot` | script.js:17-37 | any sequence of plain button presses keeps the buffer at at most one '.' |
| `Machine.StepKeepsMemory` | script.js:21-37 | a press never changes memory, from any state |
| `Machine.StepKeepsHistoryBound` | script.js:21-37 | a press keeps a history of at most 10 entries at at most 10 |
| `Machine.RunKeepsMemory` | script.js:17-37 | no sequence of presses changes memory, from any state |
| `Machine.RunKeepsHistoryBound` | script.js:17-37 | from a history of at most 10 entries, any sequence of presses leaves at most 10 |
| `App.StoredText` | script.js:6-8 | a missing stored register reads as "", a present one as its stored text |
| `App.Calculator.Load` | script.js:6-10 | the registers start from storage (absent as ""), memory and history from their parsed stored values |
| `App.Calculator.ClearDisplay` | script.js:42-48 | the new state is `Machine.Clear` of the old: registers emptied, memory and history unchanged |
| `App.Calculator.SaveHistory` | script.js:147-152 | the history becomes the bounded push of the entry, the entry is newest, and a history within 10 entries stays within 10 |
| `App.Calculator.CalculateResult` | script.js:51-70 | the new state is `Machine.Calculate` of the old state and the evaluator |
| `App.Calculator.SetOperator` | script.js:73-80 | the new state is `Machine.SetOperator` of the old |
| `App.Calculator.AppendToInput` | script.js:83-88 | the new state is `Machine.Append` of the old |
| `App.Calculator.Undo` | script.js:91-95 | the new state is `Machine.Undo` of the old |
| `App.Calculator.Press` | script.js:18-37 | a click updates the object exactly as `Machine.Step` updates the state value; it never changes memory, keeps a history within 10 entries within 10, and keeps the at-most-one-'.' buffer invariant for plain button values |

## Left out

- Rendering and event wiring: `display`, `buttons`, `historyList`, `updateHistory`, the click listeners and every `updateDisplay` call (script.js:1-3, 12-18, 155-162). Only the display rule of `updateDisplay` is kept, as `Keys.DisplayText`.
- Persistence: every `localStorage.setItem` and `saveState` (script.js:165-170) write to external storage and are no-ops here; startup parsing of memory with `parseFloat` and of history with `JSON.parse` (script.js:9-10) is outside the model, and `App.Calculator.Load` receives their results.
- `safeEvaluate` (script.js:173-180): dynamic code execution on IEEE doubles, replaced by the evaluator parameter.
- `memoryAdd`, `memorySubtract`, `memoryRecall`, `squareRoot`, `percentage`, `power` (script.js:98-139): floating-point numerics that no button reaches through the dispatch at script.js:21-37.
- A button without a `data-value` attribute, for which `getAttribute` yields `null` and the string "null" would be appended; button values are modelled as strings.
- Characters are Dafny `char`s; JavaScript's UTF-16 code units (so `slice(0, -1)` splitting a surrogate pair) are not modelled.
- `Machine.RunKeepsOneDot`: proved only for button values that are "." or contain no '.', and for evaluators whose result text has at most one '.', because the program checks nothing else.
- `History.PushedBounded`: proved only for histories that start with at most 10 entries, because one push removes at most one entry.
