/**
 * Core\PublisherClient: a facade that refuses to exist without an API
 * secret and maps each operation to one fixed request.
 */
module Publisher {
  import opened Wrappers
  import opened Php
  import opened Errors
  import opened Logging
  import opened Http

  const SecretRequiredMessage := "API secret is required for Publisher API access"

  /** One public method of the facade, with its arguments. */
  datatype Operation =
    | GetOffers(params: PhpArray)
    | GetConversions(params: PhpArray)
    | GetUsers(params: PhpArray)
    | GetPostbacks(params: PhpArray)
    | GetCountries(reload: bool)
    | GetCategories(reload: bool)
    | HealthCheck
    | SendTestPostback(data: PhpArray)

  /** The single transport call an operation delegates to: method, path and payload. */
  datatype Call = Call(verb: Verb, path: string, payload: PhpArray)

  /** `$reload ? ['reload' => true] : []` */
  function ReloadParams(reload: bool): (params: PhpArray)
    ensures "reload" in params <==> reload
    ensures params.Keys <= {"reload"}
    ensures "reload" in params ==> params["reload"] == PBool(true)
  {
    if reload then map["reload" := PBool(true)] else map[]
  }

  /** The request each operation makes. */
  function CallFor(op: Operation): (c: Call)
    // only the test postback is a POST
    ensures c.verb == POST <==> op.SendTestPostback?
    // filters and bodies are passed through unchanged
    ensures op.GetOffers? || op.GetConversions? || op.GetUsers? || op.GetPostbacks? ==>
      c.payload == op.params
    ensures op.SendTestPostback? ==> c.payload == op.data
    // the reload flag becomes a query parameter exactly when it is set
    ensures op.GetCountries? || op.GetCategories? ==> c.payload == ReloadParams(op.reload)
    ensures op.HealthCheck? ==> c.path == "/health" && c.payload == map[]
    ensures !op.HealthCheck? ==> StartsWith(c.path, "/v1/publisher/")
  {
    match op
    case GetOffers(params) => Call(GET, "/v1/publisher/offers", params)
    case GetConversions(params) => Call(GET, "/v1/publisher/conversions", params)
    case GetUsers(params) => Call(GET, "/v1/publisher/users", params)
    case GetPostbacks(params) => Call(GET, "/v1/publisher/postbacks", params)
    case GetCountries(reload) => Call(GET, "/v1/publisher/countries", ReloadParams(reload))
    case GetCategories(reload) => Call(GET, "/v1/publisher/categories", ReloadParams(reload))
    case HealthCheck => Call(GET, "/health", map[])
    case SendTestPostback(data) => Call(POST, "/v1/publisher/postback/test", data)
  }

  /** No two operations make the same call: the request identifies the operation and its arguments. */
  lemma CallForInjective(a: Operation, b: Operation)
    requires CallFor(a) == CallFor(b)
    ensures a == b
  {
  }

  class PublisherClient {
    const http: HttpClient
    const logger: Logger
    const apiSecret: string

    /** The field assignments; the guard sits in New. */
    constructor (http: HttpClient, logger: Logger, apiSecret: string)
      requires Truthy(PStr(apiSecret))
      ensures this.http == http && this.logger == logger && this.apiSecret == apiSecret
    {
      this.http := http;
      this.logger := logger;
      this.apiSecret := apiSecret;
    }

    /** `new PublisherClient(...)`: a null, "" or "0" secret is refused. */
    static method New(http: HttpClient, logger: Logger, apiSecret: Option<string>)
      returns (r: Result<PublisherClient, SdkError>)
      ensures r.Failure? <==> IsEmpty(NullableString(apiSecret))
      ensures r.Failure? ==> r.error == ConfigError(SecretRequiredMessage)
      ensures r.Success? ==> fresh(r.value)
      ensures r.Success? ==> r.value.http == http && r.value.logger == logger
      ensures r.Success? ==> apiSecret == Some(r.value.apiSecret)
    {
      if IsEmpty(NullableString(apiSecret)) {
        return Failure(ConfigError(SecretRequiredMessage));
      }
      var c := new PublisherClient(http, logger, apiSecret.value);
      r := Success(c);
    }

    /** Any of the facade's operations: one delegated call to the shared transport. */
    method Perform(op: Operation, outcome: Outcome) returns (sent: Wire, r: Result<PhpArray, SdkError>)
      ensures Sends(sent, CallFor(op).verb, CallFor(op).path, CallFor(op).payload, http.config)
      ensures r == Receive(outcome)
    {
      var call := CallFor(op);
      match call.verb
      case GET => sent, r := http.Get(call.path, call.payload, outcome);
      case POST => sent, r := http.Post(call.path, call.payload, outcome);
    }
  }
}
