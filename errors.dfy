/** The exceptions the library raises (and, in silent mode, logs instead). */
module Errors {
  import opened Wrappers
  import opened Values

  /** Why a `ValueError` was raised. */
  datatype ValueErrorReason =
    | ApiClosed                              // enqueue after stop()
    | InvalidTargetUrl(target: string)       // target does not match the URL pattern
    | InvalidCustomer                        // customer neither None, string nor dict
    | CannotConvertTimestamp(value: PyValue) // timestamp neither number nor has timestamp()

  /** One bulk command the server answered with a status other than ok and retry. */
  datatype CommandFailure = CommandFailure(status: Json, errors: Json)

  datatype Error =
    | ConnectionError                                   // requests' ConnectionError, re-raised as is
    | AuthenticationError(text: string)                 // HTTP 401, carries the response text
    | ServiceUnavailable(failure: Option<CommandFailure>) // HTTP 500, or a failed bulk command
    | InvalidRequest(errors: Json)                      // any other unsuccessful envelope
    | ValueError(reason: ValueErrorReason)
    | MalformedResponse                                 // body is not JSON, not an object, or lacks `results`
    | AttributeError                                    // `match.group` called on a failed match
}
