/** The HTTP requests the client builds: URLs, default parameters and the two verbs. */
module Requests {
  import opened Results
  import opened Json

  /** The parts of the decoded client token that requests use. */
  datatype ClientToken = ClientToken(clientApiUrl: string, authorizationFingerprint: string)

  datatype HttpMethod = GET | POST

  /**
   * An outgoing request. `query` holds the parameters added to a GET; `body` holds the
   * fields of a POST's JSON body before serialisation.
   */
  datatype Request = Request(
    verb: HttpMethod,
    url: string,
    headers: map<string, string>,
    query: map<string, string>,
    body: map<string, Json>)

  /** What the transport hands back: the HTTP status code and the response text. */
  datatype Response = Response(statusCode: int, body: string)

  const ApiVersionSegment := "/v1/"
  const PaymentMethodEndpoint := "payment_methods"
  const FingerprintKey := "authorizationFingerprint"
  const ContentTypeHeader := "Content-Type"
  const JsonMediaType := "application/json"

  /** The prefix every gateway URL of this client starts with. */
  function ApiPrefix(token: ClientToken): string {
    token.clientApiUrl + ApiVersionSegment
  }

  /** The path a URL names under the client's API prefix, or None if it is not under it. */
  function PathOf(token: ClientToken, url: string): Option<string> {
    var prefix := ApiPrefix(token);
    if |prefix| <= |url| && url[..|prefix|] == prefix then Some(url[|prefix|..]) else None
  }

  /** The gateway URL for `path`: the path can always be read back from it. */
  function Url(token: ClientToken, path: string): (u: string)
    ensures PathOf(token, u) == Some(path)
    ensures |u| == |token.clientApiUrl| + |ApiVersionSegment| + |path|
  {
    ApiPrefix(token) + path
  }

  /** A URL read back to a path is the URL of that path, so URLs and paths correspond one to one. */
  lemma PathOfUrl(token: ClientToken, url: string, path: string)
    requires PathOf(token, url) == Some(path)
    ensures Url(token, path) == url
  {
  }

  /** Two paths give the same URL only if they are the same path. */
  lemma UrlInjective(token: ClientToken, path1: string, path2: string)
    requires Url(token, path1) == Url(token, path2)
    ensures path1 == path2
  {
  }

  /** The sub-path a builder's payment method is created under. */
  function PathForPaymentMethodCreate(apiPath: string): (p: string)
    ensures |p| == |PaymentMethodEndpoint| + 1 + |apiPath|
    ensures p[..|PaymentMethodEndpoint| + 1] == "payment_methods/"
    ensures p[|PaymentMethodEndpoint| + 1..] == apiPath
  {
    PaymentMethodEndpoint + "/" + apiPath
  }

  /** The create URL of a builder's path spelled out as one string. */
  lemma CreateUrlSpelledOut(token: ClientToken, apiPath: string)
    ensures Url(token, PathForPaymentMethodCreate(apiPath)) == token.clientApiUrl + "/v1/payment_methods/" + apiPath
  {
    var segment := ApiVersionSegment + PaymentMethodEndpoint + "/";
    assert segment == "/v1/payment_methods/";
    assert Url(token, PathForPaymentMethodCreate(apiPath))
        == token.clientApiUrl + (segment + apiPath);
  }

  /** The parameters every request carries: the authorization fingerprint, and nothing else. */
  function DefaultParameters(token: ClientToken): (d: map<string, string>)
    ensures d.Keys == {FingerprintKey}
    ensures d[FingerprintKey] == token.authorizationFingerprint
  {
    map[FingerprintKey := token.authorizationFingerprint]
  }

  /** String parameters seen as JSON string values. */
  function AsJson(params: map<string, string>): map<string, Json> {
    map k | k in params :: JString(params[k])
  }

  /** Java's `Map.putAll`: every entry of `source` is written into `target`, replacing clashes. */
  function PutAll<V>(target: map<string, V>, source: map<string, V>): map<string, V> {
    target + source
  }

  /**
   * The create-request body: an empty map, then `putAll` of the defaults, then `putAll`
   * of the builder's parameters. Because the builder's entries are written second,
   * they win every key clash, the fingerprint included.
   */
  function MergeParams(defaults: map<string, string>, builderParams: map<string, Json>): (m: map<string, Json>)
    ensures m.Keys == defaults.Keys + builderParams.Keys
    ensures forall k :: k in builderParams ==> m[k] == builderParams[k]
    ensures forall k :: k in defaults && k !in builderParams ==> m[k] == JString(defaults[k])
  {
    PutAll(PutAll(map[], AsJson(defaults)), builderParams)
  }

  /** The three properties of `MergeParams` determine its result completely. */
  lemma MergeParamsUnique(defaults: map<string, string>, builderParams: map<string, Json>, m: map<string, Json>)
    requires m.Keys == defaults.Keys + builderParams.Keys
    requires forall k :: k in builderParams ==> m[k] == builderParams[k]
    requires forall k :: k in defaults && k !in builderParams ==> m[k] == JString(defaults[k])
    ensures m == MergeParams(defaults, builderParams)
  {
  }

  /** A POST to `path`, declared as carrying JSON; its body is attached by the caller. */
  function Post(token: ClientToken, path: string): (req: Request)
    ensures req.verb == POST && PathOf(token, req.url) == Some(path)
    ensures ContentTypeHeader in req.headers && req.headers[ContentTypeHeader] == JsonMediaType
    ensures req.headers.Keys == {ContentTypeHeader}
    ensures req.query == map[] && req.body == map[]
  {
    Request(POST, Url(token, path), map[ContentTypeHeader := JsonMediaType], map[], map[])
  }

  /**
   * A GET of `path`: starts from a bare request and adds every default parameter to the
   * query, one entry at a time, as `GET`'s loop over the entries of `getDefaultParameters()` does.
   */
  method Get(token: ClientToken, path: string) returns (req: Request)
    ensures req.verb == GET && PathOf(token, req.url) == Some(path)
    ensures req.headers == map[] && req.body == map[]
    ensures req.query.Keys == DefaultParameters(token).Keys
    ensures forall k :: k in req.query ==> req.query[k] == DefaultParameters(token)[k]
  {
    var defaults := DefaultParameters(token);
    req := Request(GET, Url(token, path), map[], map[], map[]);
    var remaining := defaults.Keys;
    while remaining != {}
      invariant remaining <= defaults.Keys
      invariant req.verb == GET && req.url == Url(token, path)
      invariant req.headers == map[] && req.body == map[]
      invariant req.query.Keys == defaults.Keys - remaining
      invariant forall k :: k in req.query ==> req.query[k] == defaults[k]
      decreases remaining
    {
      var key :| key in remaining;
      req := req.(query := req.query[key := defaults[key]]);
      remaining := remaining - {key};
    }
  }
}
