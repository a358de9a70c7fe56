/**
 * The synchronous gateway client: payment-method creation, tokenization, listing and the
 * completion of the PayPal flow, composed from requests, the classifier and extraction.
 */
module Gateway {
  import opened Results
  import opened Json
  import opened Errors
  import opened Classifier
  import opened Requests

  const ParseFailedMessage := "Parsing server response failed"

  /** The exception a response that cannot be read is reported as: a server error with a message. */
  const ParseFailure: ApiError := ServerError(Some(ParseFailedMessage))

  /**
   * A client instance: its token, the transport that performs one HTTP exchange, and the
   * JSON text codec. The transport answers None when the exchange itself fails, which the
   * client reports as an `UnexpectedException`, the only exception `execute()` raises.
   */
  datatype Client = Client(
    token: ClientToken,
    execute: Request -> Option<Response>,
    codec: Codec)

  /** What handling the PayPal activity's result yields: a builder, null, or a configuration failure. */
  datatype PayPalHandled<B> = WithBuilder(builder: B) | NoBuilder | ConfigurationFailed

  /**
   * What the client asks of a payment-method builder `B` and of the payment method `PM`
   * it produces; all of it is defined outside this model.
   */
  datatype BuilderOps<!B, !PM> = BuilderOps(
    toJson: B -> map<string, Json>,
    fromJson: (B, string) -> PM,
    apiPath: B -> string,
    apiResource: B -> string,
    validate: (B, bool) -> B,
    nonce: PM -> string)

  /**
   * The text of the first record stored under `resource` in a response. The response
   * must be a JSON object whose `resource` entry is a non-empty array; anything else
   * fails with `ParseFailure`, and no default record is ever produced.
   */
  function JsonForType(codec: Codec, response: string, resource: string): (r: Result<string, ApiError>)
    ensures r.Success? <==>
              var parsed := codec.parse(response);
              && parsed.Some?
              && parsed.value.JObject?
              && resource in parsed.value.members
              && parsed.value.members[resource].JArray?
              && |parsed.value.members[resource].elements| > 0
    ensures r.Success? ==>
              r.value == codec.render(codec.parse(response).value.members[resource].elements[0])
    ensures r.Failure? ==> r.error == ParseFailure
  {
    match codec.parse(response)
    case Some(JObject(members)) =>
      if resource in members && members[resource].JArray? && |members[resource].elements| > 0
      then Success(codec.render(members[resource].elements[0]))
      else Failure(ParseFailure)
    case _ => Failure(ParseFailure)
  }

  /** Whatever follows the first record of the array, extraction returns that first record. */
  lemma JsonForTypeFirstRecord(codec: Codec, response: string, resource: string,
                               members: map<string, Json>, first: Json, rest: seq<Json>)
    requires codec.parse(response) == Some(JObject(members))
    requires resource in members && members[resource] == JArray([first] + rest)
    ensures JsonForType(codec, response, resource) == Success(codec.render(first))
  {
  }

  /** An empty array under the resource key is a parse failure, not "no record". */
  lemma JsonForTypeEmptyArray(codec: Codec, response: string, resource: string, members: map<string, Json>)
    requires codec.parse(response) == Some(JObject(members))
    requires resource in members && members[resource] == JArray([])
    ensures JsonForType(codec, response, resource) == Failure(ParseFailure)
  {
  }

  /**
   * The request `create` sends: a JSON POST to the builder's path under the payment
   * methods endpoint, whose body is the defaults overwritten by the builder's parameters.
   */
  function CreateRequest<B, PM>(token: ClientToken, ops: BuilderOps<B, PM>, b: B): (req: Request)
    ensures req.verb == POST
    ensures req.url == token.clientApiUrl + "/v1/payment_methods/" + ops.apiPath(b)
    ensures req.headers == map[ContentTypeHeader := JsonMediaType]
    ensures req.query == map[]
    ensures req.body.Keys == {FingerprintKey} + ops.toJson(b).Keys
    ensures forall k :: k in ops.toJson(b) ==> req.body[k] == ops.toJson(b)[k]
    ensures FingerprintKey !in ops.toJson(b) ==> req.body[FingerprintKey] == JString(token.authorizationFingerprint)
  {
    CreateUrlSpelledOut(token, ops.apiPath(b));
    Post(token, PathForPaymentMethodCreate(ops.apiPath(b)))
      .(body := MergeParams(DefaultParameters(token), ops.toJson(b)))
  }

  /**
   * `create`: send the create request, classify its status, and only on a success code
   * extract the record under the builder's resource key and parse it with the builder.
   */
  function Create<B, PM>(client: Client, ops: BuilderOps<B, PM>, b: B): (r: Result<PM, ApiError>)
    ensures var sent := client.execute(CreateRequest(client.token, ops, b));
            sent.None? ==> r == Failure(Unexpected)
    ensures var sent := client.execute(CreateRequest(client.token, ops, b));
            sent.Some? && !IsSuccessCode(sent.value.statusCode) ==>
              r == Failure(Classify(sent.value.statusCode, sent.value.body).error)
    ensures var sent := client.execute(CreateRequest(client.token, ops, b));
            sent.Some? && sent.value.statusCode == HttpUnprocessableEntity ==>
              r == Failure(ErrorWithResponse(HttpUnprocessableEntity, sent.value.body))
    ensures var sent := client.execute(CreateRequest(client.token, ops, b));
            sent.Some? && IsSuccessCode(sent.value.statusCode)
            && JsonForType(client.codec, sent.value.body, ops.apiResource(b)).Failure? ==>
              r == Failure(ParseFailure)
    ensures var sent := client.execute(CreateRequest(client.token, ops, b));
            sent.Some? && IsSuccessCode(sent.value.statusCode) ==>
              var record := JsonForType(client.codec, sent.value.body, ops.apiResource(b));
              record.Success? ==> r == Success(ops.fromJson(b, record.value))
    ensures var sent := client.execute(CreateRequest(client.token, ops, b));
            r.Success? ==>
              && sent.Some?
              && IsSuccessCode(sent.value.statusCode)
              && var record := JsonForType(client.codec, sent.value.body, ops.apiResource(b));
                 record.Success? && r.value == ops.fromJson(b, record.value)
  {
    match client.execute(CreateRequest(client.token, ops, b))
    case None => Failure(Unexpected)
    case Some(response) =>
      match Classify(response.statusCode, response.body)
      case Fail(e) => Failure(e)
      case Pass =>
        match JsonForType(client.codec, response.body, ops.apiResource(b))
        case Failure(e) => Failure(e)
        case Success(record) => Success(ops.fromJson(b, record))
  }

  /** `create` issues exactly one request: transports that agree on it give the same result. */
  lemma CreateSendsOneRequest<B, PM>(client: Client, ops: BuilderOps<B, PM>, b: B,
                                     other: Request -> Option<Response>)
    requires other(CreateRequest(client.token, ops, b)) == client.execute(CreateRequest(client.token, ops, b))
    ensures Create(client.(execute := other), ops, b) == Create(client, ops, b)
  {
  }

  /** A success status whose record array is empty makes `create` fail; it never yields a default. */
  lemma CreateEmptyArrayFails<B, PM>(client: Client, ops: BuilderOps<B, PM>, b: B,
                                     status: int, response: string, members: map<string, Json>)
    requires client.execute(CreateRequest(client.token, ops, b)) == Some(Response(status, response))
    requires IsSuccessCode(status)
    requires client.codec.parse(response) == Some(JObject(members))
    requires ops.apiResource(b) in members && members[ops.apiResource(b)] == JArray([])
    ensures Create(client, ops, b) == Failure(ParseFailure)
  {
  }

  /** `tokenize`: `create` on the builder with validation switched off, keeping only the nonce. */
  function Tokenize<B, PM>(client: Client, ops: BuilderOps<B, PM>, b: B): (r: Result<string, ApiError>)
    ensures var created := Create(client, ops, ops.validate(b, false));
            && (r.Success? <==> created.Success?)
            && (r.Success? ==> r.value == ops.nonce(created.value))
            && (r.Failure? ==> r.error == created.error)
  {
    match Create(client, ops, ops.validate(b, false))
    case Success(pm) => Success(ops.nonce(pm))
    case Failure(e) => Failure(e)
  }

  /** The one request `tokenize` issues is the create request of the non-validating builder. */
  lemma TokenizeSendsNonValidatingRequest<B, PM>(client: Client, ops: BuilderOps<B, PM>, b: B,
                                                 other: Request -> Option<Response>)
    requires var req := CreateRequest(client.token, ops, ops.validate(b, false));
             other(req) == client.execute(req)
    ensures Tokenize(client.(execute := other), ops, b) == Tokenize(client, ops, b)
  {
  }

  /**
   * `getPaymentMethods`: a GET of the payment methods endpoint carrying the default
   * parameters; the status is classified before `parseList` reads the body.
   */
  method GetPaymentMethods<PM>(client: Client, parseList: string -> Result<seq<PM>, ApiError>)
    returns (req: Request, r: Result<seq<PM>, ApiError>)
    ensures req.verb == GET
    ensures req.url == client.token.clientApiUrl + "/v1/payment_methods"
    ensures req.query == DefaultParameters(client.token)
    ensures req.headers == map[] && req.body == map[]
    ensures var sent := client.execute(req);
            sent.None? ==> r == Failure(Unexpected)
    ensures var sent := client.execute(req);
            sent.Some? && !IsSuccessCode(sent.value.statusCode) ==>
              r == Failure(Classify(sent.value.statusCode, sent.value.body).error)
    ensures var sent := client.execute(req);
            sent.Some? && IsSuccessCode(sent.value.statusCode) ==> r == parseList(sent.value.body)
  {
    req := Get(client.token, PaymentMethodEndpoint);
    var sent := client.execute(req);
    match sent {
      case None =>
        r := Failure(Unexpected);
      case Some(response) =>
        match Classify(response.statusCode, response.body) {
          case Fail(e) =>
            r := Failure(e);
          case Pass =>
            r := parseList(response.body);
        }
    }
  }

  /**
   * `finishPayWithPayPal`: turn the PayPal activity's result into a builder with
   * `handle`; a configuration failure is reported as such, no builder (the user
   * cancelled) gives no payment method, otherwise the result is exactly that of
   * `create` on the builder.
   */
  function FinishPayWithPayPal<B, PM, D>(client: Client, ops: BuilderOps<B, PM>,
                                         handle: (int, D) -> PayPalHandled<B>,
                                         resultCode: int, data: D): (r: Result<Option<PM>, ApiError>)
    ensures handle(resultCode, data).ConfigurationFailed? ==> r == Failure(Configuration)
    ensures handle(resultCode, data).NoBuilder? ==> r == Success(None)
    ensures var handled := handle(resultCode, data);
            handled.WithBuilder? ==>
              var created := Create(client, ops, handled.builder);
              && (r.Success? <==> created.Success?)
              && (r.Success? ==> r.value == Some(created.value))
              && (r.Failure? ==> r.error == created.error)
  {
    match handle(resultCode, data)
    case ConfigurationFailed => Failure(Configuration)
    case NoBuilder => Success(None)
    case WithBuilder(builder) =>
      match Create(client, ops, builder)
      case Success(pm) => Success(Some(pm))
      case Failure(e) => Failure(e)
  }

  /** Without a builder no request is issued: the result does not depend on the transport. */
  lemma FinishWithoutBuilderSendsNothing<B, PM, D>(client: Client, ops: BuilderOps<B, PM>,
                                                   handle: (int, D) -> PayPalHandled<B>,
                                                   resultCode: int, data: D,
                                                   other: Request -> Option<Response>)
    requires handle(resultCode, data).NoBuilder?
    ensures FinishPayWithPayPal(client.(execute := other), ops, handle, resultCode, data)
            == FinishPayWithPayPal(client, ops, handle, resultCode, data)
            == Success(None)
  {
  }

  /** `create` never reports a configuration error: that kind belongs to the PayPal handling alone. */
  lemma CreateNeverConfiguration<B, PM>(client: Client, ops: BuilderOps<B, PM>, b: B)
    ensures Create(client, ops, b) != Failure(Configuration)
  {
    var sent := client.execute(CreateRequest(client.token, ops, b));
    if sent.Some? {
      ClassifyNeverReportsParseOrConfiguration(sent.value.statusCode, sent.value.body);
    }
  }

  /** Finishing the PayPal flow fails with the configuration error exactly when handling its result did. */
  lemma FinishConfigurationIff<B, PM, D>(client: Client, ops: BuilderOps<B, PM>,
                                         handle: (int, D) -> PayPalHandled<B>,
                                         resultCode: int, data: D)
    ensures FinishPayWithPayPal(client, ops, handle, resultCode, data) == Failure(Configuration)
            <==> handle(resultCode, data).ConfigurationFailed?
  {
    if handle(resultCode, data).WithBuilder? {
      CreateNeverConfiguration(client, ops, handle(resultCode, data).builder);
    }
  }

  /** `create` fails recoverably exactly when the server answered 422. */
  lemma CreateRecoverableOnlyOn422<B, PM>(client: Client, ops: BuilderOps<B, PM>, b: B)
    ensures var r := Create(client, ops, b);
            var sent := client.execute(CreateRequest(client.token, ops, b));
            (r.Failure? && r.error.IsRecoverable())
            <==> (sent.Some? && sent.value.statusCode == HttpUnprocessableEntity)
  {
  }
}
