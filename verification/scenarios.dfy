/** Concrete exchanges with the gateway and what the client makes of them. */
module Scenarios {
  import opened Results
  import opened Json
  import opened Errors
  import opened Requests
  import opened Gateway

  /** A 422 with a field error comes back as the recoverable failure carrying that exact body. */
  lemma ValidationFailureKeepsBody<B, PM>(client: Client, ops: BuilderOps<B, PM>, b: B)
    requires client.execute(CreateRequest(client.token, ops, b))
             == Some(Response(422, "{\"error\":\"invalid postal code\"}"))
    ensures Create(client, ops, b) == Failure(ErrorWithResponse(422, "{\"error\":\"invalid postal code\"}"))
    ensures Create(client, ops, b).error.IsRecoverable()
  {
  }

  /** A 200 holding one card record yields the payment method the builder parses from it. */
  lemma CardRecordExtracted<B, PM>(client: Client, ops: BuilderOps<B, PM>, b: B, response: string, card: Json)
    requires client.execute(CreateRequest(client.token, ops, b)) == Some(Response(200, response))
    requires client.codec.parse(response) == Some(JObject(map["creditCards" := JArray([card])]))
    requires ops.apiResource(b) == "creditCards"
    ensures Create(client, ops, b) == Success(ops.fromJson(b, client.codec.render(card)))
  {
  }

  /** A 503 aborts creation and tokenization alike, whatever the body says. */
  lemma DownForMaintenanceAborts<B, PM>(client: Client, ops: BuilderOps<B, PM>, b: B, response: string)
    requires client.execute(CreateRequest(client.token, ops, b)) == Some(Response(503, response))
    requires client.execute(CreateRequest(client.token, ops, ops.validate(b, false)))
             == Some(Response(503, response))
    ensures Create(client, ops, b) == Failure(DownForMaintenance)
    ensures Tokenize(client, ops, b) == Failure(DownForMaintenance)
  {
  }
}
