/**
 * The key-press dispatch of the calculator and the rule that turns the
 * input buffer into the text shown on the display.
 */
module Keys {

  /** The operation a key press is routed to (script.js:21-37). */
  datatype Command =
    | ClearDisplay
    | CalculateResult
    | SetOperator(op: string)
    | AppendToInput(value: string)

  /** The four binary operator keys. */
  const Operators: set<string> := {"+", "-", "*", "/"}

  /** The tokens that are not appended to the input buffer. */
  const ControlTokens: set<string> := {"C", "="} + Operators

  /**
   * Routes the `data-value` of a pressed button. "C" clears, "=" evaluates,
   * an operator key sets the pending operator and every other token,
   * whatever it is, is appended to the input buffer.
   */
  function Dispatch(token: string): (c: Command)
    ensures c == ClearDisplay <==> token == "C"
    ensures c == CalculateResult <==> token == "="
    ensures c.SetOperator? <==> token in Operators
    ensures c.AppendToInput? <==> token !in ControlTokens
    ensures c.SetOperator? ==> c.op == token
    ensures c.AppendToInput? ==> c.value == token
  {
    if token == "C" then ClearDisplay
    else if token == "=" then CalculateResult
    else if token in Operators then SetOperator(token)
    else AppendToInput(token)
  }

  /** The display shows the value itself, or "0" when the value is empty. */
  function DisplayText(value: string): (text: string)
    ensures text != ""
    ensures value != "" ==> text == value
    ensures value == "" ==> text == "0"
  {
    if value == "" then "0" else value
  }

  /**
   * The display rule is one-to-one except that an empty buffer and the
   * buffer "0" look the same.
   */
  lemma DisplayTextConflatesOnlyEmptyAndZero(a: string, b: string)
    requires a != b
    ensures DisplayText(a) == DisplayText(b) <==> (a == "" && b == "0") || (a == "0" && b == "")
  {
  }
}
