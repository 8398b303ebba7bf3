/**
 * The calculator of script.js as an object: its module-level variables are
 * the fields, and each handler updates them in place. Each method is tied
 * to its transition function: ClearDisplay to Machine.Clear,
 * CalculateResult to Machine.Calculate, SetOperator to Machine.SetOperator,
 * AppendToInput to Machine.Append, Undo to Machine.Undo, Press to
 * Machine.Step and SaveHistory to History.Pushed.
 */
module App {

  import opened Wrappers
  import Keys
  import Decimal
  import History
  import Machine

  /** `localStorage.getItem(key) || ''`: a missing key reads as the empty string. */
  function StoredText(stored: Option<string>): (text: string)
    ensures stored.None? ==> text == ""
    ensures stored.Some? ==> text == stored.value
  {
    match stored
    case None => ""
    case Some(v) => v
  }

  class Calculator {
    var currentInput: string
    var operator: string
    var previousInput: string
    var memory: Machine.Double
    var history: seq<string>

    /** The fields as one value. */
    function State(): Machine.CalcState
      reads this
    {
      Machine.CalcState(currentInput, operator, previousInput, memory, history)
    }

    /**
     * Startup (script.js:6-10). The three text registers come from storage,
     * empty when absent; memory and history arrive already parsed.
     */
    constructor Load(storedInput: Option<string>, storedOperator: Option<string>,
                     storedPrevious: Option<string>, storedMemory: Machine.Double,
                     storedHistory: seq<string>)
      ensures currentInput == StoredText(storedInput)
      ensures operator == StoredText(storedOperator)
      ensures previousInput == StoredText(storedPrevious)
      ensures memory == storedMemory && history == storedHistory
    {
      currentInput := StoredText(storedInput);
      operator := StoredText(storedOperator);
      previousInput := StoredText(storedPrevious);
      memory := storedMemory;
      history := storedHistory;
    }

    /** clearDisplay (script.js:42-48). */
    method ClearDisplay()
      modifies this
      ensures State() == Machine.Clear(old(State()))
      ensures currentInput == "" && operator == "" && previousInput == ""
      ensures memory == old(memory) && history == old(history)
    {
      currentInput := "";
      operator := "";
      previousInput := "";
    }

    /** saveHistory (script.js:147-152): push, then drop the oldest past the capacity. */
    method SaveHistory(entry: string)
      modifies this`history
      ensures history == History.Pushed(old(history), entry)
      ensures |old(history)| <= History.Capacity ==> |history| <= History.Capacity
      ensures history[|history| - 1] == entry
    {
      history := history + [entry];
      if |history| > History.Capacity {
        history := history[1..];
      }
      History.PushedEffect(old(history), entry);
    }

    /** calculateResult (script.js:51-70), with safeEvaluate passed in as `eval`. */
    method CalculateResult(eval: Machine.Evaluator)
      modifies this
      ensures State() == Machine.Calculate(old(State()), eval)
    {
      if currentInput != "" && previousInput != "" && operator != "" {
        var expression := previousInput + " " + operator + " " + currentInput;
        match eval(expression)
        case Some(result) =>
          SaveHistory(expression + " = " + result);
          currentInput := result;
          operator := "";
          previousInput := "";
        case None =>
          ClearDisplay();
      }
    }

    /** setOperator (script.js:73-80). */
    method SetOperator(op: string)
      modifies this
      ensures State() == Machine.SetOperator(old(State()), op)
    {
      if currentInput != "" {
        operator := op;
        previousInput := currentInput;
        currentInput := "";
      }
    }

    /** appendToInput (script.js:83-88). */
    method AppendToInput(value: string)
      modifies this
      ensures State() == Machine.Append(old(State()), value)
    {
      if value == "." && '.' in currentInput {
        return;
      }
      currentInput := currentInput + value;
    }

    /** undo (script.js:91-95). */
    method Undo()
      modifies this
      ensures State() == Machine.Undo(old(State()))
    {
      if currentInput != "" {
        currentInput := currentInput[..|currentInput| - 1];
      }
    }

    /** The click handler: route the button's value to its operation (script.js:19-37). */
    method Press(token: string, eval: Machine.Evaluator)
      modifies this
      ensures State() == Machine.Step(old(State()), token, eval)
      ensures memory == old(memory)
      ensures |old(history)| <= History.Capacity ==> |history| <= History.Capacity
      ensures (old(Decimal.AtMostOneDot(currentInput)) && Machine.PlainToken(token)
               && Machine.NumericResults(eval)) ==> Decimal.AtMostOneDot(currentInput)
    {
      ghost var before := State();
      match Keys.Dispatch(token) {
        case ClearDisplay => ClearDisplay();
        case CalculateResult => CalculateResult(eval);
        case SetOperator(op) => SetOperator(op);
        case AppendToInput(value) => AppendToInput(value);
      }
      Machine.StepKeepsMemory(before, token, eval);
      if |before.history| <= History.Capacity {
        Machine.StepKeepsHistoryBound(before, token, eval);
      }
      if Decimal.AtMostOneDot(before.currentInput) && Machine.PlainToken(token)
        && Machine.NumericResults(eval) {
        Machine.StepKeepsOneDot(before, token, eval);
      }
    }
  }
}
