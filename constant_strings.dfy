/**
 * The resource strings of the saga (`ConstantStrings`). Only the text of
 * `InvalidParameters` is known from the orchestrator's tests; every other
 * text stands for itself by its resource name, and the format strings keep
 * the argument they are formatted with.
 */
module ConstantStrings {

  const InvalidParameters: string := "Invalid orchestrator parameters"

  /** The message of a result for a null activity. */
  const ExceptionMessage: string := "ExceptionMessage"

  /** `string.Format(ConstantStrings.TimeoutError, functionName)`. */
  function TimeoutError(functionName: string): string
  {
    "TimeoutError: " + functionName
  }

  const ProcessAccountToError: string := "ProcessAccountToError"
  const ProcessAccountFromError: string := "ProcessAccountFromError"
  const ProcessAmountError: string := "ProcessAmountError"

  /** Distinct function names give distinct timeout messages. */
  lemma TimeoutErrorNamesFunction(a: string, b: string)
    ensures TimeoutError(a) == TimeoutError(b) <==> a == b
  {
    if TimeoutError(a) == TimeoutError(b) {
      assert a == TimeoutError(a)[14..];
    }
  }
}
