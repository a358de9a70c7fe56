# Braintree Android gateway client — request/response core in Dafny

This project models the synchronous gateway client `BraintreeApi` of the Braintree Android
SDK: how it builds its HTTP requests (URLs, the default `authorizationFingerprint`
parameter, the merged JSON body of a create request, the query of a GET), how it turns an
HTTP status code into success or one of its exception classes (`checkAndThrowErrors`),
how it extracts the first record under a resource key of a response (`jsonForType`), and
how `create`, `tokenize`, `getPaymentMethods` and `finishPayWithPayPal` compose these.

Modules:

- `Results` (results.dfy): `Option` (a Java reference that may be null) and `Result`
  (a value or the exception thrown instead), plus `Outcome` for a check with no value.
- `Json` (json.dfy): JSON values and the text codec (`parse`, `render`), which is a
  parameter of the model.
- `Errors` (errors.dfy): `ApiError`, one constructor per exception class; only
  `ErrorWithResponse` is recoverable.
- `Classifier` (classifier.dfy): the status table, and `FatalStatus`, which reads the table
  backwards from the error's side.
- `Requests` (requests.dfy): the client token, requests, URLs and their inverse `PathOf`,
  the default parameters, the `putAll` merge, `POST`, and `GET` with its loop over the
  defaults.
- `Gateway` (gateway.dfy): `jsonForType` and the four public operations. The transport
  (`execute`), the JSON codec, the builder's methods (`toJson`, `fromJson`, `getApiPath`,
  `getApiResource`, `validate`, the payment method's `getNonce`),
  `PaymentMethod.parsePaymentMethods` and `handlePayPalResponse` are function parameters. `handlePayPalResponse` answers a builder, no builder, or a failure that stands for its `ConfigurationException`.
- `Scenarios` (scenarios.dfy): concrete exchanges (a 422 with a field error, a 200 with one
  card record, a 503).

"No request is issued" and "exactly this request is issued" are stated as independence
from the transport. If two transports agree on the request in question, or agree on nothing
at all, the operation gives the same result with either.

Two behaviours of the code are easy to misread, and the model follows the code:

- In a create request the builder's parameters overwrite the defaults. `putAll` of the
  builder's map runs after `putAll` of the defaults. A builder that supplies its own
  `authorizationFingerprint` therefore replaces the token's fingerprint. Nothing guarantees
  that the default survives.
- A response that cannot be read reports a `ServerException` whose message is
  "Parsing server response failed". This is the same exception class that HTTP 500
  produces (that one has no message), not a separate kind of failure.

## Model

| member | source | states |
|---|---|---|
| Classifier.Classify | BraintreeApi/src/main/java/com/braintreepayments/api/BraintreeApi.java:289-309 | success exactly for 200, 201 and 202; the recoverable error exactly for 422, carrying that status and the body unchanged; the five named failure codes give five distinct fatal errors, each read back to its code through FatalStatus; every other code gives Unexpected, and only those codes do |
| Classifier.ClassifyFatalTable | BraintreeApi/src/main/java/com/braintreepayments/api/BraintreeApi.java:294-305 | 401, 403, 426, 500 and 503 classify to Authentication, Authorization, UpgradeRequired, ServerError without message and DownForMaintenance, for any body |
| Classifier.ClassifyUnexpectedIff | BraintreeApi/src/main/java/com/braintreepayments/api/BraintreeApi.java:291-308 | Unexpected is reported if and only if the code is none of the nine the table names |
| Classifier.ClassifyIgnoresBody | BraintreeApi/src/main/java/com/braintreepayments/api/BraintreeApi.java:291-308 | for every code except 422 the outcome does not depend on the body |
| Classifier.ClassifyNeverReportsParseOrConfiguration | BraintreeApi/src/main/java/com/braintreepayments/api/BraintreeApi.java:289-309 | classification never yields the configuration error or a server error with a message |
| Requests.Url | BraintreeApi/src/main/java/com/braintreepayments/api/BraintreeApi.java:247-249 | the path can be read back from the URL, and the URL is as long as the base URL, "/v1/" and the path together |
| Requests.PathOfUrl | BraintreeApi/src/main/java/com/braintreepayments/api/BraintreeApi.java:247-249 | a URL from which a path is read back is exactly the URL of that path |
| Requests.UrlInjective | BraintreeApi/src/main/java/com/braintreepayments/api/BraintreeApi.java:247-249 | distinct paths give distinct URLs |
| Requests.CreateUrlSpelledOut | BraintreeApi/src/main/java/com/braintreepayments/api/BraintreeApi.java:247-253 | the create URL is the base URL followed by "/v1/payment_methods/" and the builder's API path |
| Requests.PathForPaymentMethodCreate | BraintreeApi/src/main/java/com/braintreepayments/api/BraintreeApi.java:251-253 | the create path is "payment_methods/" followed by the builder's API path, which can be read back from it |
| Requests.DefaultParameters | BraintreeApi/src/main/java/com/braintreepayments/api/BraintreeApi.java:266-272 | the defaults hold one key, authorizationFingerprint, bound to the token's fingerprint |
| Requests.MergeParams | BraintreeApi/src/main/java/com/braintreepayments/api/BraintreeApi.java:145-147 | the merged keys are the union; the builder's value wins every clash; a default survives only where the builder lacks the key |
| Requests.MergeParamsUnique | BraintreeApi/src/main/java/com/braintreepayments/api/BraintreeApi.java:145-147 | any map with those three properties is the merge, so they characterise it completely |
| Requests.Post | BraintreeApi/src/main/java/com/braintreepayments/api/BraintreeApi.java:284-287 | a POST to the URL of the path, with the single header Content-Type: application/json and nothing else |
| Requests.Get | BraintreeApi/src/main/java/com/braintreepayments/api/BraintreeApi.java:274-282 | a GET to the URL of the path whose query holds exactly the default parameters, no header and no body |
| Gateway.JsonForType | BraintreeApi/src/main/java/com/braintreepayments/api/BraintreeApi.java:255-264 | succeeds exactly when the body parses to an object whose resource entry is a non-empty array, and then returns its first element's text; every other case is the parse-failure server error |
| Gateway.JsonForTypeFirstRecord | BraintreeApi/src/main/java/com/braintreepayments/api/BraintreeApi.java:259-260 | whatever follows it, the first record of the array is the one returned |
| Gateway.JsonForTypeEmptyArray | BraintreeApi/src/main/java/com/braintreepayments/api/BraintreeApi.java:259-262 | an empty array fails with the parse-failure error instead of yielding a default record |
| Gateway.CreateRequest | BraintreeApi/src/main/java/com/braintreepayments/api/BraintreeApi.java:143-151 | a JSON POST to base + "/v1/payment_methods/" + API path, no query, whose body keys are the fingerprint key and the builder's keys; builder values win, and the token's fingerprint is sent unless the builder supplies that key |
| Gateway.Create | BraintreeApi/src/main/java/com/braintreepayments/api/BraintreeApi.java:143-157 | a failed exchange gives Unexpected; a non-success status gives its classified error (422 with the body) before any parsing; an unreadable success body gives the parse failure; a success code with an extractable record gives exactly the builder's parse of that record, and success happens only that way |
| Gateway.CreateSendsOneRequest | BraintreeApi/src/main/java/com/braintreepayments/api/BraintreeApi.java:149-153 | create's result depends on the transport only through its answer to the create request |
| Gateway.CreateEmptyArrayFails | BraintreeApi/src/main/java/com/braintreepayments/api/BraintreeApi.java:153-156 | a success status with an empty record array makes create fail with the parse-failure error |
| Gateway.Tokenize | BraintreeApi/src/main/java/com/braintreepayments/api/BraintreeApi.java:173-177 | tokenize succeeds exactly when create on the builder with validation off succeeds, and returns that payment method's nonce or the same error |
| Gateway.TokenizeSendsNonValidatingRequest | BraintreeApi/src/main/java/com/braintreepayments/api/BraintreeApi.java:173-177 | the only request tokenize depends on is the create request of the non-validating builder |
| Gateway.CreateRecoverableOnlyOn422 | BraintreeApi/src/main/java/com/braintreepayments/api/BraintreeApi.java:138-156 | create fails with the recoverable ErrorWithResponse if and only if the server answered 422 |
| Gateway.CreateNeverConfiguration | BraintreeApi/src/main/java/com/braintreepayments/api/BraintreeApi.java:143-157 | create never reports the configuration error, whatever the exchange |
| Gateway.GetPaymentMethods | BraintreeApi/src/main/java/com/braintreepayments/api/BraintreeApi.java:185-190 | a GET of base + "/v1/payment_methods" with exactly the defaults as query; a non-success status gives its classified error without parsing; on success the list parser's result |
| Gateway.FinishPayWithPayPal | BraintreeApi/src/main/java/com/braintreepayments/api/BraintreeApi.java:121-129 | a failed handling gives the configuration error; no builder gives no payment method; otherwise exactly create's result or error for the builder |
| Gateway.FinishConfigurationIff | BraintreeApi/src/main/java/com/braintreepayments/api/BraintreeApi.java:104-129 | finishing fails with the configuration error if and only if handling the PayPal result failed |
| Gateway.FinishWithoutBuilderSendsNothing | BraintreeApi/src/main/java/com/braintreepayments/api/BraintreeApi.java:123-128 | when handling yields no builder the result is "none" whatever the transport, so no request is issued |
| Scenarios.ValidationFailureKeepsBody | BraintreeApi/src/main/java/com/braintreepayments/api/BraintreeApi.java:298-299 | a 422 with a field-error body fails create recoverably with status 422 and that body |
| Scenarios.CardRecordExtracted | BraintreeApi/src/main/java/com/braintreepayments/api/BraintreeApi.java:153-156 | a 200 holding one credit-card record yields the builder's parse of that record |
| Scenarios.DownForMaintenanceAborts | BraintreeApi/src/main/java/com/braintreepayments/api/BraintreeApi.java:304-305 | a 503 makes both create and tokenize fail with DownForMaintenance, whatever the body |

## Left out

- Network I/O: `HttpRequestFactory` and `HttpRequest.execute` are the `execute` parameter. It answers a status and body, or None when the exchange fails. The client reports that as `UnexpectedException`, the only exception `execute()` raises: `sendAnalyticsEvent` catches nothing else around it. Headers the factory adds by itself are not modelled.
- JSON text: Gson's serialisation of the request body and org.json's parsing are left out. A request carries its body as a map. The response text is read through the `parse` and `render` parameters. `render` stands for the element's `toString()`.
- JSON numbers keep their literal text, because the client never computes with them.
- Collaborators outside this class are parameters with no behaviour of their own: `PaymentMethod.Builder`'s `toJson`, `fromJson`, `getApiPath`, `getApiResource` and `validate`; `getNonce`; `PaymentMethod.parsePaymentMethods`; `handlePayPalResponse`.
- `handlePayPalResponse` also stops the PayPal service. That side effect is not modelled.
- `startPayWithPayPal`: it only launches an Android activity through `PayPalHelper`.
- `sendAnalyticsEvent`: a best-effort POST whose failures are swallowed. It is pure I/O.
- `collectDeviceData`: a call into the `BraintreeData` library, bound to an Android activity.
- The constructors and the feature-flag getters (`isPayPalEnabled`, `isCvvChallengePresent`, `isPostalCodeChallengePresent`): they delegate to `ClientToken`. Its decoding is not part of this model. The token is reduced to the API URL and the fingerprint.
- `create` with validation off is not shown to avoid 422: whether the gateway validates is the server's behaviour, and the client passes the answer through unchanged.
- The code has no guard against completing the PayPal flow twice, so the model has none.
