/**
 * The connector's error codes (shared by `RCException` and `RCRuntimeException`) and the exceptions
 * the core can throw, as values.
 */
module Errors {
  import opened Wrappers

  const IO_ERROR: int := 0
  const RESOURCE_NOT_FOUND: int := 1
  const DATA_CONVERSION_ERROR: int := 2
  const ILLEGAL_ARGUMENT: int := 3
  const ILLEGAL_STATE: int := 4
  const OBJECT_NOT_FOUND: int := 404
  const UNPROCESSABLE_ENTITY: int := 422

  /** The exceptions the modelled code throws, as values.
      `RC` is the checked `RCException` and `RCRuntime` the unchecked `RCRuntimeException`; both
      carry an error code, the message given to their constructor (none for the constructors that
      take only a cause) and the exception they wrap. `Binding` is a failure of the XML binding
      library, `IO` an `IOException` of the file system. */
  datatype Exception =
    | IllegalArgument(message: string)
    | IllegalState(message: string, cause: Option<Exception>)
    | UnsupportedOperation(message: string)
    | NullPointer
    | RC(code: int, rcMessage: Option<string>, cause: Option<Exception>)
    | RCRuntime(code: int, rcMessage: Option<string>, cause: Option<Exception>)
    | Binding(message: string)
    | IO(message: string)

  /** Whether the value is an `RCException`, the one class `handleException` passes through. */
  predicate IsRCException(e: Exception)
  {
    e.RC?
  }

  function ErrorCodes(): seq<int>
  {
    [IO_ERROR, RESOURCE_NOT_FOUND, DATA_CONVERSION_ERROR, ILLEGAL_ARGUMENT, ILLEGAL_STATE,
     OBJECT_NOT_FOUND, UNPROCESSABLE_ENTITY]
  }

  /** The seven error codes are pairwise distinct. */
  lemma ErrorCodesDistinct()
    ensures forall i, j :: 0 <= i < j < |ErrorCodes()| ==> ErrorCodes()[i] != ErrorCodes()[j]
  {
  }
}
