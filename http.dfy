/**
 * Core\HttpClient: shapes every request (payload entry plus auth headers),
 * hands it to the transport, and turns what the transport did into a
 * decoded array or an SDK error. The transport itself (Guzzle, TLS, the
 * network) is an abstract `Outcome`; `json_decode` is folded into it.
 */
module Http {
  import opened Wrappers
  import opened Php
  import opened Errors
  import opened Configuration
  import opened Logging

  datatype Verb = GET | POST

  /** What `json_decode($body, true)` made of the response body. */
  datatype Body = Undecodable | Decoded(value: PhpValue)

  /**
   * What the transport did with one request: a response (status and body),
   * or a transport exception whose code is the HTTP status for an error
   * response and 0 for a connection failure.
   */
  datatype Outcome = Responded(status: int, body: Body) | Failed(cause: Cause)

  /** The request handed to the transport: method, path and the options array. */
  datatype Wire = Wire(verb: Verb, path: string, options: PhpArray)

  const Json := PStr("application/json")
  const AuthFailedMessage := "Authentication failed. Please check your API credentials."
  const InvalidJsonMessage := "Invalid JSON response from API"

  /** The options key that carries the payload: query parameters or a JSON body. */
  function PayloadKey(verb: Verb): (key: string) {
    match verb
    case GET => "query"
    case POST => "json"
  }

  /**
   * The headers the API expects from this configuration: JSON in both
   * directions, a bearer token, and the secret exactly when it is truthy.
   */
  predicate Authenticated(headers: PhpArray, config: Config) {
    && "Accept" in headers && headers["Accept"] == Json
    && "Content-Type" in headers && headers["Content-Type"] == Json
    && "Authorization" in headers && headers["Authorization"] == PStr("Bearer " + config.apiKey)
    && ("X-API-Secret" in headers <==> Truthy(NullableString(config.apiSecret)))
    && ("X-API-Secret" in headers ==> headers["X-API-Secret"] == PStr(config.apiSecret.value))
    && headers.Keys <= {"Accept", "Content-Type", "Authorization", "X-API-Secret"}
  }

  /**
   * `sent` is a `verb` request for `path` whose options hold exactly the
   * payload entry, unchanged, and the authentication headers.
   */
  predicate Sends(sent: Wire, verb: Verb, path: string, payload: PhpArray, config: Config) {
    && sent.verb == verb
    && sent.path == path
    && sent.options.Keys == {PayloadKey(verb), "headers"}
    && sent.options[PayloadKey(verb)] == PArr(payload)
    && sent.options["headers"].PArr?
    && Authenticated(sent.options["headers"].entries, config)
  }

  /**
   * The catch block of `request`: a transport exception becomes exactly one
   * of an auth, API or network error, decided by its code. Auth codes are
   * tested before the general 4xx range.
   */
  function ClassifyFailure(cause: Cause): (e: SdkError)
    ensures e.IsKlinkException()
    ensures e.AuthError? <==> cause.code == 401 || cause.code == 403
    ensures e.ApiError? <==> cause.code >= 400 && cause.code != 401 && cause.code != 403
    ensures e.NetworkError? <==> cause.code < 400
    ensures e.AuthError? ==> e == AuthError(AuthFailedMessage, cause.code, cause)
    ensures e.ApiError? && cause.code < 500 ==> e == ApiError("API error: " + cause.message, cause.code)
    ensures e.ApiError? && cause.code >= 500 ==> e == ApiError("Server error: " + cause.message, cause.code)
    ensures e.NetworkError? ==> e == NetworkError("Network error: " + cause.message, 0, cause)
  {
    var code := cause.code;
    if code == 401 || code == 403 then AuthError(AuthFailedMessage, code, cause)
    else if 400 <= code < 500 then ApiError("API error: " + cause.message, code)
    else if code >= 500 then ApiError("Server error: " + cause.message, code)
    else NetworkError("Network error: " + cause.message, 0, cause)
  }

  /**
   * The result of `request` for a given transport outcome. A response whose
   * body does not decode raises the API error inside the try, where only
   * transport exceptions are caught, so it is never reclassified. A body that
   * decodes to something other than an array violates the `array` return
   * type.
   */
  function Receive(outcome: Outcome): (r: Result<PhpArray, SdkError>)
    ensures outcome.Responded? && outcome.body.Undecodable? ==>
      r == Failure(ApiError(InvalidJsonMessage, outcome.status))
    ensures outcome.Responded? && outcome.body.Decoded? && outcome.body.value.PArr? ==>
      r == Success(outcome.body.value.entries)
    ensures outcome.Responded? && outcome.body.Decoded? && !outcome.body.value.PArr? ==>
      r == Failure(TypeError("return"))
    ensures outcome.Failed? ==> r == Failure(ClassifyFailure(outcome.cause))
  {
    match outcome
    case Responded(status, Undecodable) => Failure(ApiError(InvalidJsonMessage, status))
    case Responded(_, Decoded(PArr(data))) => Success(data)
    case Responded(_, Decoded(_)) => Failure(TypeError("return"))
    case Failed(cause) => Failure(ClassifyFailure(cause))
  }

  class HttpClient {
    const config: Config
    const logger: Logger

    constructor (config: Config, logger: Logger)
      ensures this.config == config && this.logger == logger
    {
      this.config := config;
      this.logger := logger;
    }

    /** buildHeaders: the fixed headers, then the secret header if the secret is truthy. */
    method BuildHeaders() returns (headers: PhpArray)
      ensures Authenticated(headers, config)
    {
      headers := map[
        "Accept" := Json,
        "Content-Type" := Json,
        "Authorization" := PStr("Bearer " + config.apiKey)
      ];
      if Truthy(NullableString(config.apiSecret)) {
        headers := headers["X-API-Secret" := PStr(config.apiSecret.value)];
      }
    }

    /**
     * request: set the `headers` entry of the options, leave every other
     * entry as it was, send, and receive.
     */
    method Request(verb: Verb, path: string, options: PhpArray, outcome: Outcome)
      returns (sent: Wire, r: Result<PhpArray, SdkError>)
      ensures sent.verb == verb && sent.path == path
      ensures sent.options.Keys == options.Keys + {"headers"}
      ensures forall k :: k in options && k != "headers" ==> sent.options[k] == options[k]
      ensures sent.options["headers"].PArr? && Authenticated(sent.options["headers"].entries, config)
      ensures r == Receive(outcome)
    {
      var headers := BuildHeaders();
      var opts := options;
      opts := opts["headers" := PArr(headers)];
      sent := Wire(verb, path, opts);
      r := Receive(outcome);
    }

    /** get: the parameters travel as the query. */
    method Get(path: string, params: PhpArray, outcome: Outcome)
      returns (sent: Wire, r: Result<PhpArray, SdkError>)
      ensures Sends(sent, GET, path, params, config)
      ensures r == Receive(outcome)
    {
      sent, r := Request(GET, path, map["query" := PArr(params)], outcome);
    }

    /** post: the data travels as the JSON body. */
    method Post(path: string, data: PhpArray, outcome: Outcome)
      returns (sent: Wire, r: Result<PhpArray, SdkError>)
      ensures Sends(sent, POST, path, data, config)
      ensures r == Receive(outcome)
    {
      sent, r := Request(POST, path, map["json" := PArr(data)], outcome);
    }
  }
}
