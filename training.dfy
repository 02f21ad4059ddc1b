/** Checking a just-recorded training sample (Xcode/ESP/src/training.h):
    the three-valued result with its message, the example checker of the
    header's documentation, and the single registered-checker slot. */
module Training {
  import opened Wrappers
  import opened LabelledData

  /** TrainingSampleCheckerResult::Result, in declaration order. */
  datatype Result = SUCCESS | WARNING | FAILURE

  /** The enumerator's value: how severe the outcome is. */
  function Severity(r: Result): nat
  {
    match r
    case SUCCESS => 0
    case WARNING => 1
    case FAILURE => 2
  }

  /** There are exactly three outcomes, and they are pairwise distinct. */
  lemma ThreeOutcomes(r: Result)
    ensures r == SUCCESS || r == WARNING || r == FAILURE
    ensures |{SUCCESS, WARNING, FAILURE}| == 3
  {
  }

  /** kDefaultSuccessMessage, kDefaultWarningMessage, kDefaultFailureMessage.
      Their text is defined outside the header, so the model takes them as
      given and only assumes, where a property needs it, that they differ. */
  datatype DefaultMessages = DefaultMessages(success: string, warning: string, failure: string)
  {
    predicate Distinct()
    {
      success != warning && warning != failure && success != failure
    }

    function For(r: Result): string
    {
      match r
      case SUCCESS => success
      case WARNING => warning
      case FAILURE => failure
    }
  }

  /** TrainingSampleCheckerResult: an immutable outcome and message. */
  datatype CheckerResult = CheckerResult(result: Result, message: string)
  {
    function GetResult(): Result { result }

    function GetMessage(): string { message }
  }

  /** The two-argument constructor keeps the message it is given. */
  function WithMessage(result: Result, message: string): (c: CheckerResult)
    ensures c.GetResult() == result && c.GetMessage() == message
  {
    CheckerResult(result, message)
  }

  /** The one-argument constructor uses the default message of that severity. */
  function WithDefaultMessage(result: Result, defaults: DefaultMessages): (c: CheckerResult)
    ensures c.GetResult() == result && c.GetMessage() == defaults.For(result)
  {
    CheckerResult(result, defaults.For(result))
  }

  /** With distinct defaults, a default message tells which severity made it. */
  lemma DefaultMessageTellsSeverity(defaults: DefaultMessages, a: Result, b: Result)
    requires defaults.Distinct()
    ensures WithDefaultMessage(a, defaults).GetMessage() == WithDefaultMessage(b, defaults).GetMessage() <==> a == b
  {
  }

  /** TrainingSampleChecker: it sees the sample by const reference, which a
      Dafny function (it cannot change anything) stands for. */
  type Checker = Matrix -> CheckerResult

  /** The checker given as an example in the documentation of
      useTrainingSampleChecker. */
  function ExampleCheck(defaults: DefaultMessages, data: Matrix): (c: CheckerResult)
    ensures c.GetResult() == FAILURE <==> |data| == 0
    ensures c.GetResult() == WARNING <==> |data| == 1
    ensures c.GetResult() == SUCCESS <==> |data| >= 2
    ensures |data| == 0 ==> c.GetMessage() == "Error: Training sample doesn't contain any data."
    ensures |data| == 1 ==> c.GetMessage() == "Warning: Sample only contains one data point."
    ensures |data| >= 2 ==> c.GetMessage() == defaults.success
  {
    if |data| == 0 then
      WithMessage(FAILURE, "Error: Training sample doesn't contain any data.")
    else if |data| == 1 then
      WithMessage(WARNING, "Warning: Sample only contains one data point.")
    else
      WithDefaultMessage(SUCCESS, defaults)
  }

  /** A longer recording is never judged more severely by the example checker. */
  lemma ExampleCheckMonotone(defaults: DefaultMessages, shorter: Matrix, longer: Matrix)
    requires |shorter| <= |longer|
    ensures Severity(ExampleCheck(defaults, longer).GetResult()) <= Severity(ExampleCheck(defaults, shorter).GetResult())
  {
  }

  /** The one process-wide checker slot set by useTrainingSampleChecker. */
  class CheckerSlot {
    var active: Option<Checker>

    /** No checker is registered until the first call. */
    constructor ()
      ensures active == None
    {
      active := None;
    }

    /** useTrainingSampleChecker: the new checker replaces whatever was there. */
    method Use(checker: Checker)
      modifies this
      ensures active == Some(checker)
    {
      active := Some(checker);
    }

    /** Consulting the slot on a finished recording: the active checker's
        verdict on it, or nothing when none is registered. Nothing changes. */
    method Check(data: Matrix) returns (r: Option<CheckerResult>)
      ensures active.None? ==> r.None?
      ensures active.Some? ==> r == Some(active.value(data))
    {
      match active {
        case None => r := None;
        case Some(checker) => r := Some(checker(data));
      }
    }
  }

  /** Only the last registration is in force: after use(first) then
      use(second), every sample is judged by second. */
  method LastRegistrationWins(slot: CheckerSlot, first: Checker, second: Checker, data: Matrix)
    returns (r: Option<CheckerResult>)
    modifies slot
    ensures slot.active == Some(second)
    ensures r == Some(second(data))
  {
    slot.Use(first);
    slot.Use(second);
    r := slot.Check(data);
  }
}
