/** Classification of an HTTP status code into success or one exception (`checkAndThrowErrors`). */
module Classifier {
  import opened Results
  import opened Errors

  const HttpOk := 200
  const HttpCreated := 201
  const HttpAccepted := 202
  const HttpUnauthorized := 401
  const HttpForbidden := 403
  const HttpUnprocessableEntity := 422
  const HttpUpgradeRequired := 426
  const HttpInternalError := 500
  const HttpUnavailable := 503

  /** Every status code the classifier names; all others are unexpected. */
  const KnownStatusCodes: set<int> := {
    HttpOk, HttpCreated, HttpAccepted, HttpUnauthorized, HttpForbidden,
    HttpUnprocessableEntity, HttpUpgradeRequired, HttpInternalError, HttpUnavailable
  }

  predicate IsSuccessCode(status: int) {
    status == HttpOk || status == HttpCreated || status == HttpAccepted
  }

  /**
   * The one status code whose response raises the fatal error `e`, read from the
   * error's side. Validation failures, parse failures, configuration errors and
   * unexpected codes have no single status and answer None.
   */
  function FatalStatus(e: ApiError): Option<int> {
    match e
    case Authentication => Some(HttpUnauthorized)
    case Authorization => Some(HttpForbidden)
    case UpgradeRequired => Some(HttpUpgradeRequired)
    case ServerError(None) => Some(HttpInternalError)
    case DownForMaintenance => Some(HttpUnavailable)
    case _ => None
  }

  /**
   * Pass for the success codes; otherwise the exception the client throws. Only the
   * validation failure (422) looks at the response body, which it carries unchanged.
   */
  function Classify(status: int, response: string): (r: Outcome<ApiError>)
    ensures r.Pass? <==> IsSuccessCode(status)
    ensures (r.Fail? && r.error.IsRecoverable()) <==> status == HttpUnprocessableEntity
    ensures status == HttpUnprocessableEntity ==> r == Fail(ErrorWithResponse(status, response))
    ensures r.Fail? && !r.error.IsRecoverable() ==>
              FatalStatus(r.error) == Some(status) || r.error == Unexpected
    ensures r == Fail(Unexpected) <==> status !in KnownStatusCodes
  {
    if IsSuccessCode(status) then Pass
    else if status == HttpUnauthorized then Fail(Authentication)
    else if status == HttpForbidden then Fail(Authorization)
    else if status == HttpUnprocessableEntity then Fail(ErrorWithResponse(status, response))
    else if status == HttpUpgradeRequired then Fail(UpgradeRequired)
    else if status == HttpInternalError then Fail(ServerError(None))
    else if status == HttpUnavailable then Fail(DownForMaintenance)
    else Fail(Unexpected)
  }

  /** Each fatal error with a status of its own is exactly what that status classifies to. */
  lemma ClassifyFatalTable(e: ApiError, response: string)
    requires FatalStatus(e).Some?
    ensures Classify(FatalStatus(e).value, response) == Fail(e)
  {
  }

  /** Unexpected is reported for exactly the codes the table does not name. */
  lemma ClassifyUnexpectedIff(status: int, response: string)
    ensures Classify(status, response) == Fail(Unexpected) <==> status !in KnownStatusCodes
  {
  }

  /** Apart from 422, the outcome depends on the status code alone. */
  lemma ClassifyIgnoresBody(status: int, response1: string, response2: string)
    requires status != HttpUnprocessableEntity
    ensures Classify(status, response1) == Classify(status, response2)
  {
  }

  /** The classifier never produces the parse-failure or configuration errors. */
  lemma ClassifyNeverReportsParseOrConfiguration(status: int, response: string)
    ensures var r := Classify(status, response);
            r.Fail? ==> r.error != Configuration && (r.error.ServerError? ==> r.error.message.None?)
  {
  }
}
