/** The exceptions the gateway client reports to its callers. */
module Errors {
  import opened Results

  /**
   * One constructor per exception class the client throws. `ErrorWithResponse` is the
   * recoverable validation failure; every other constructor is a fatal
   * `BraintreeException`. `ServerError` carries the exception's message, which is
   * absent for an HTTP 500 and present when a response could not be parsed.
   */
  datatype ApiError =
    | ErrorWithResponse(statusCode: int, response: string)
    | Authentication
    | Authorization
    | UpgradeRequired
    | ServerError(message: Option<string>)
    | DownForMaintenance
    | Unexpected
    | Configuration
  {
    /** Only a validation failure can be corrected by the caller and resubmitted. */
    predicate IsRecoverable() {
      ErrorWithResponse?
    }
  }
}
