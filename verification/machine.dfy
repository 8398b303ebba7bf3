/**
 * The calculator's state as a value, one function per transition of
 * script.js, and the properties those transitions keep.
 */
module Machine {

  import opened Wrappers
  import Keys
  import Decimal
  import History

  /** A JavaScript number, as its IEEE-754 bit pattern; nothing here inspects it. */
  type Double = bv64

  /**
   * `safeEvaluate` followed by `toString`: applied to the expression text,
   * `Some(r)` is a non-null, non-undefined result whose text is `r`, and
   * `None` is an exception, `null` or `undefined`.
   */
  type Evaluator = string -> Option<string>

  /** The module-level variables of script.js:6-10. */
  datatype CalcState = CalcState(
    currentInput: string,
    operator: string,
    previousInput: string,
    memory: Double,
    history: seq<string>)

  /** clearDisplay (script.js:42-48). */
  function Clear(s: CalcState): CalcState {
    s.(currentInput := "", operator := "", previousInput := "")
  }

  /** The text handed to the evaluator, `${previousInput} ${operator} ${currentInput}`. */
  function Expression(s: CalcState): string {
    s.previousInput + " " + s.operator + " " + s.currentInput
  }

  /** calculateResult (script.js:51-70). */
  function Calculate(s: CalcState, eval: Evaluator): CalcState {
    if s.currentInput != "" && s.previousInput != "" && s.operator != "" then
      match eval(Expression(s))
      case Some(r) =>
        CalcState(r, "", "", s.memory, History.Pushed(s.history, Expression(s) + " = " + r))
      case None => Clear(s)
    else s
  }

  /** setOperator (script.js:73-80). */
  function SetOperator(s: CalcState, op: string): CalcState {
    if s.currentInput == "" then s
    else s.(operator := op, previousInput := s.currentInput, currentInput := "")
  }

  /** appendToInput (script.js:83-88). */
  function Append(s: CalcState, value: string): CalcState {
    if value == "." && '.' in s.currentInput then s
    else s.(currentInput := s.currentInput + value)
  }

  /** undo (script.js:91-95): `slice(0, -1)`. */
  function Undo(s: CalcState): CalcState {
    var cur := s.currentInput;
    s.(currentInput := if cur == "" then "" else cur[..|cur| - 1])
  }

  /** One button press, routed as in script.js:21-37. */
  function Step(s: CalcState, token: string, eval: Evaluator): CalcState {
    match Keys.Dispatch(token)
    case ClearDisplay => Clear(s)
    case CalculateResult => Calculate(s, eval)
    case SetOperator(op) => SetOperator(s, op)
    case AppendToInput(value) => Append(s, value)
  }

  /** A sequence of button presses, first to last. */
  function Run(s: CalcState, tokens: seq<string>, eval: Evaluator): CalcState
    decreases |tokens|
  {
    if tokens == [] then s else Run(Step(s, tokens[0], eval), tokens[1..], eval)
  }

  // ---------------------------------------------------------------------
  // Single transitions

  /** clearDisplay empties the three registers and keeps memory and history. */
  lemma ClearEffect(s: CalcState)
    ensures Clear(s).currentInput == "" && Clear(s).operator == "" && Clear(s).previousInput == ""
    ensures Clear(s).memory == s.memory && Clear(s).history == s.history
  {
  }

  /**
   * A second '.' is ignored; any other token is appended to the buffer and
   * nothing else changes.
   */
  lemma AppendEffect(s: CalcState, value: string)
    ensures value == "." && '.' in s.currentInput ==> Append(s, value) == s
    ensures !(value == "." && '.' in s.currentInput) ==>
      Append(s, value) == s.(currentInput := s.currentInput + value)
  {
  }

  /** setOperator is a no-op on an empty buffer, else it moves the buffer into previousInput. */
  lemma SetOperatorEffect(s: CalcState, op: string)
    ensures s.currentInput == "" ==> SetOperator(s, op) == s
    ensures s.currentInput != "" ==>
      && SetOperator(s, op).previousInput == s.currentInput
      && SetOperator(s, op).operator == op
      && SetOperator(s, op).currentInput == ""
    ensures SetOperator(s, op).memory == s.memory && SetOperator(s, op).history == s.history
  {
  }

  /**
   * undo removes exactly the last character of the buffer, leaves an empty
   * buffer empty (so it is idempotent there) and touches no other register.
   */
  lemma UndoEffect(s: CalcState)
    ensures Undo(s) == s.(currentInput := Undo(s).currentInput)
    ensures s.currentInput == "" ==> Undo(s) == s && Undo(Undo(s)) == Undo(s)
    ensures s.currentInput != "" ==>
      Undo(s).currentInput + [s.currentInput[|s.currentInput| - 1]] == s.currentInput
  {
  }

  /** calculateResult does nothing unless all three registers are non-empty. */
  lemma CalculateGated(s: CalcState, eval: Evaluator)
    requires s.currentInput == "" || s.previousInput == "" || s.operator == ""
    ensures Calculate(s, eval) == s
  {
  }

  /**
   * A successful evaluation records "prev op cur = r" as the newest history
   * entry, leaves r in the buffer and clears the operator and operand.
   */
  lemma CalculateSucceeds(s: CalcState, eval: Evaluator, r: string)
    requires s.currentInput != "" && s.previousInput != "" && s.operator != ""
    requires eval(Expression(s)) == Some(r)
    ensures Calculate(s, eval).currentInput == r
    ensures Calculate(s, eval).operator == "" && Calculate(s, eval).previousInput == ""
    ensures Calculate(s, eval).memory == s.memory
    ensures Calculate(s, eval).history == History.Pushed(s.history,
      s.previousInput + " " + s.operator + " " + s.currentInput + " = " + r)
    ensures var h := Calculate(s, eval).history;
      h[|h| - 1] == s.previousInput + " " + s.operator + " " + s.currentInput + " = " + r
  {
    History.PushedEffect(s.history, Expression(s) + " = " + r);
  }

  /** A failed evaluation is a clearDisplay: history and memory are untouched. */
  lemma CalculateFails(s: CalcState, eval: Evaluator)
    requires s.currentInput != "" && s.previousInput != "" && s.operator != ""
    requires eval(Expression(s)) == None
    ensures Calculate(s, eval) == Clear(s)
    ensures Calculate(s, eval).history == s.history && Calculate(s, eval).memory == s.memory
  {
  }

  /**
   * Pressing 6, /, 4, = evaluates "6 / 4", which JavaScript computes as 1.5:
   * the buffer holds "1.5" and the newest history entry is "6 / 4 = 1.5".
   */
  lemma SixDividedByFour(s: CalcState, eval: Evaluator)
    requires s.previousInput == "6" && s.operator == "/" && s.currentInput == "4"
    requires eval("6 / 4") == Some("1.5")
    ensures Calculate(s, eval).currentInput == "1.5"
    ensures var h := Calculate(s, eval).history; h[|h| - 1] == "6 / 4 = 1.5"
  {
    assert Expression(s) == "6 / 4";
    CalculateSucceeds(s, eval, "1.5");
  }

  /**
   * Division by zero is not an error: only null or undefined are, so a
   * result of Infinity is kept and logged instead of clearing the state.
   */
  lemma DivisionByZeroIsLogged(s: CalcState, eval: Evaluator)
    requires s.previousInput == "5" && s.operator == "/" && s.currentInput == "0"
    requires eval("5 / 0") == Some("Infinity")
    ensures Calculate(s, eval) != Clear(s)
    ensures var h := Calculate(s, eval).history;
      |h| > 0 && h[|h| - 1] == "5 / 0 = Infinity" && Calculate(s, eval).currentInput == "Infinity"
  {
    assert Expression(s) == "5 / 0";
    CalculateSucceeds(s, eval, "Infinity");
  }

  // ---------------------------------------------------------------------
  // The single-decimal-point invariant

  /** A button value that cannot smuggle in a second '.' by itself. */
  predicate PlainToken(token: string) {
    token == "." || '.' !in token
  }

  /** Every text the evaluator produces has at most one '.', as a number's toString does. */
  ghost predicate NumericResults(eval: Evaluator) {
    forall e :: eval(e).Some? ==> Decimal.AtMostOneDot(eval(e).value)
  }

  lemma AppendKeepsOneDot(s: CalcState, value: string)
    requires Decimal.AtMostOneDot(s.currentInput)
    requires PlainToken(value)
    ensures Decimal.AtMostOneDot(Append(s, value).currentInput)
  {
    if !(value == "." && '.' in s.currentInput) {
      Decimal.DotCountConcat(s.currentInput, value);
      Decimal.DotCountPositiveIffContainsDot(value);
      if value == "." {
        Decimal.DotCountPositiveIffContainsDot(s.currentInput);
        assert Decimal.DotCount(value) == 1;
      }
    }
  }

  lemma UndoKeepsOneDot(s: CalcState)
    requires Decimal.AtMostOneDot(s.currentInput)
    ensures Decimal.AtMostOneDot(Undo(s).currentInput)
  {
  }

  lemma SetOperatorKeepsOneDot(s: CalcState, op: string)
    requires Decimal.AtMostOneDot(s.currentInput)
    ensures Decimal.AtMostOneDot(SetOperator(s, op).currentInput)
  {
  }

  lemma ClearKeepsOneDot(s: CalcState)
    ensures Decimal.DotCount(Clear(s).currentInput) == 0
    ensures Decimal.AtMostOneDot(Clear(s).currentInput)
  {
  }

  lemma StepKeepsOneDot(s: CalcState, token: string, eval: Evaluator)
    requires Decimal.AtMostOneDot(s.currentInput)
    requires PlainToken(token)
    requires NumericResults(eval)
    ensures Decimal.AtMostOneDot(Step(s, token, eval).currentInput)
  {
    match Keys.Dispatch(token)
    case ClearDisplay => ClearKeepsOneDot(s);
    case CalculateResult =>
      var result := eval(Expression(s));
      assert result.Some? ==> Decimal.AtMostOneDot(result.value);
    case SetOperator(op) => SetOperatorKeepsOneDot(s, op);
    case AppendToInput(value) => AppendKeepsOneDot(s, value);
  }

  /**
   * For any sequence of plain button values, a buffer that starts with at
   * most one '.' never holds more than one.
   */
  lemma {:induction false} RunKeepsOneDot(s: CalcState, tokens: seq<string>, eval: Evaluator)
    requires Decimal.AtMostOneDot(s.currentInput)
    requires forall i :: 0 <= i < |tokens| ==> PlainToken(tokens[i])
    requires NumericResults(eval)
    ensures Decimal.AtMostOneDot(Run(s, tokens, eval).currentInput)
    decreases |tokens|
  {
    if tokens != [] {
      StepKeepsOneDot(s, tokens[0], eval);
      RunKeepsOneDot(Step(s, tokens[0], eval), tokens[1..], eval);
    }
  }

  // ---------------------------------------------------------------------
  // Memory and history across button presses

  /** No button press reaches the memory register. */
  lemma StepKeepsMemory(s: CalcState, token: string, eval: Evaluator)
    ensures Step(s, token, eval).memory == s.memory
  {
  }

  /** A single press keeps a history within capacity within capacity. */
  lemma StepKeepsHistoryBound(s: CalcState, token: string, eval: Evaluator)
    requires |s.history| <= History.Capacity
    ensures |Step(s, token, eval).history| <= History.Capacity
  {
  }

  /** No sequence of button presses changes the memory register, whatever the state. */
  lemma {:induction false} RunKeepsMemory(s: CalcState, tokens: seq<string>, eval: Evaluator)
    ensures Run(s, tokens, eval).memory == s.memory
    decreases |tokens|
  {
    if tokens != [] {
      StepKeepsMemory(s, tokens[0], eval);
      RunKeepsMemory(Step(s, tokens[0], eval), tokens[1..], eval);
    }
  }

  /**
   * A history within capacity stays within capacity however many
   * calculations are made.
   */
  lemma {:induction false} RunKeepsHistoryBound(s: CalcState, tokens: seq<string>, eval: Evaluator)
    requires |s.history| <= History.Capacity
    ensures |Run(s, tokens, eval).history| <= History.Capacity
    decreases |tokens|
  {
    if tokens != [] {
      StepKeepsHistoryBound(s, tokens[0], eval);
      RunKeepsHistoryBound(Step(s, tokens[0], eval), tokens[1..], eval);
    }
  }
}
