/**
 * KlinkSDK: the factory that validates, builds and health-checks before it
 * hands out an SDK, and the two facades it builds on first use and keeps.
 */
module Sdk {
  import opened Wrappers
  import opened Php
  import opened Errors
  import opened Validation
  import opened Configuration
  import opened Logging
  import opened Http
  import opened Publisher
  import opened Advertiser

  const InitFailedPrefix := "Failed to initialize SDK: "
  const InvalidStatusMessage := "Health check failed: Invalid status"

  /** `isset($health['status']) && $health['status'] === 'ok'` */
  predicate HealthOk(health: PhpArray) {
    IsSet(health, "status") && health["status"] == PStr("ok")
  }

  /**
   * The try/catch around the health check in `create`: `None` lets creation
   * go on. Every \Exception, including the one for a bad status, is wrapped
   * with its message and kept as previous; a \TypeError passes through.
   */
  function HealthGate(health: Result<PhpArray, SdkError>): (r: Option<SdkError>)
    ensures r.None? <==> health.Success? && HealthOk(health.value)
    ensures health.Success? && !HealthOk(health.value) ==>
      r == Some(WrappedException(InitFailedPrefix + InvalidStatusMessage, PlainException(InvalidStatusMessage)))
    ensures health.Failure? && health.error.IsException() ==>
      r == Some(WrappedException(InitFailedPrefix + health.error.Message(), health.error))
    ensures health.Failure? && !health.error.IsException() ==> r == Some(health.error)
  {
    match health
    case Success(h) =>
      if HealthOk(h) then None
      else
        var e := PlainException(InvalidStatusMessage);
        Some(WrappedException(InitFailedPrefix + e.Message(), e))
    case Failure(e) =>
      if e.IsException() then Some(WrappedException(InitFailedPrefix + e.Message(), e))
      else Some(e)
  }

  /** A configuration that passes validation always fits Config's typed properties. */
  lemma ValidatedConfigConstructs(raw: PhpArray, validUrl: string -> bool)
    requires WellFormed(raw, validUrl)
    ensures NewConfig(raw).Success?
    ensures NewConfig(raw).value.apiKey != "" && NewConfig(raw).value.apiKey != "0"
    ensures NewConfig(raw).value.timeoutMs > 0
  {
  }

  /**
   * What `create` decides, given the outcome of its health request: the
   * Config the new SDK holds, or the error it throws.
   */
  function CreateDecision(raw: PhpArray, validUrl: string -> bool, health: Outcome): (r: Result<Config, SdkError>)
    // validation errors come first and are thrown as they are
    ensures !WellFormed(raw, validUrl) ==> r == Failure(ValidateConfig(raw, validUrl).value)
    // otherwise success exactly when the health response decodes and says "ok"
    ensures WellFormed(raw, validUrl) ==>
      (r.Success? <==> Receive(health).Success? && HealthOk(Receive(health).value))
    ensures r.Success? ==> NewConfig(raw) == Success(r.value)
    // any failure of the health check is reported as an initialisation failure
    ensures WellFormed(raw, validUrl) && r.Failure? && r.error.IsException() ==>
      r.error.WrappedException? && StartsWith(r.error.message, InitFailedPrefix)
    // only the return-type TypeError of the health request escapes unwrapped
    ensures WellFormed(raw, validUrl) && r.Failure? && !r.error.IsException() ==>
      r.error == TypeError("return")
  {
    match ValidateConfig(raw, validUrl)
    case Some(e) => Failure(e)
    case None =>
      ValidatedConfigConstructs(raw, validUrl);
      var gate := HealthGate(Receive(health));
      if gate.Some? then Failure(gate.value) else Success(NewConfig(raw).value)
  }

  /** An unreachable server (a transport failure with no status) makes create fail. */
  lemma UnreachableServerFails(raw: PhpArray, validUrl: string -> bool, cause: Cause)
    requires cause.code == 0
    ensures CreateDecision(raw, validUrl, Failed(cause)).Failure?
    ensures WellFormed(raw, validUrl) ==>
      CreateDecision(raw, validUrl, Failed(cause)).error
        == WrappedException(InitFailedPrefix + "Network error: " + cause.message,
                            NetworkError("Network error: " + cause.message, 0, cause))
  {
  }

  class KlinkSDK {
    const config: Config
    const logger: Logger
    const httpClient: HttpClient
    var publisherClient: PublisherClient?
    var advertiserClient: AdvertiserClient?

    /**
     * The SDK's invariant: the transport is built on the SDK's own config and
     * logger, and every memoised facade shares that transport and logger and
     * carries the config's credential.
     */
    ghost predicate Valid()
      reads this
    {
      && httpClient.config == config && httpClient.logger == logger
      && logger.debug == config.debug
      && (publisherClient != null ==>
            && publisherClient.http == httpClient && publisherClient.logger == logger
            && config.apiSecret == Some(publisherClient.apiSecret))
      && (advertiserClient != null ==>
            && advertiserClient.http == httpClient && advertiserClient.logger == logger
            && advertiserClient.apiKey == config.apiKey)
    }

    /** The private constructor: one Logger and one HttpClient, no facades yet. */
    constructor (config: Config)
      ensures Valid() && this.config == config
      ensures fresh(logger) && logger.debug == config.debug
      ensures fresh(httpClient) && httpClient.config == config && httpClient.logger == logger
      ensures publisherClient == null && advertiserClient == null
    {
      this.config := config;
      var logger := new Logger(config.debug);
      this.logger := logger;
      this.httpClient := new HttpClient(config, logger);
      publisherClient := null;
      advertiserClient := null;
    }

    /**
     * create. `health` is what the transport does with the health request;
     * `probe` is that request, if it was sent at all.
     */
    static method Create(raw: PhpArray, validUrl: string -> bool, health: Outcome)
      returns (probe: Option<Wire>, r: Result<KlinkSDK, SdkError>)
      ensures probe.None? <==> !WellFormed(raw, validUrl)
      ensures probe.Some? ==> NewConfig(raw).Success?
      ensures probe.Some? ==> Sends(probe.value, GET, "/health", map[], NewConfig(raw).value)
      ensures r.Failure? <==> CreateDecision(raw, validUrl, health).Failure?
      ensures r.Failure? ==> r.error == CreateDecision(raw, validUrl, health).error
      ensures r.Success? ==> fresh(r.value) && r.value.config == CreateDecision(raw, validUrl, health).value
      ensures r.Success? ==> r.value.Valid() && fresh(r.value.httpClient) && fresh(r.value.logger)
      ensures r.Success? ==> r.value.publisherClient == null && r.value.advertiserClient == null
    {
      var invalid := ValidateConfig(raw, validUrl);
      if invalid.Some? {
        return None, Failure(invalid.value);
      }
      ValidatedConfigConstructs(raw, validUrl);
      var config := NewConfig(raw).value;
      var logger := new Logger(config.debug);
      var http := new HttpClient(config, logger);
      var sent, response := http.Get("/health", map[], health);
      probe := Some(sent);
      var failure := HealthGate(response);
      if failure.Some? {
        return probe, Failure(failure.value);
      }
      var sdk := new KlinkSDK(config);
      r := Success(sdk);
    }

    /**
     * publisher(): build the facade on first success and return the same
     * instance from then on. A refused secret leaves nothing memoised.
     */
    method Publisher() returns (r: Result<PublisherClient, SdkError>)
      requires Valid()
      modifies this`publisherClient
      ensures Valid()
      ensures r.Success? ==> publisherClient == r.value
      ensures old(publisherClient) != null ==>
        r == Success(old(publisherClient)) && publisherClient == old(publisherClient)
      ensures old(publisherClient) == null && IsEmpty(NullableString(config.apiSecret)) ==>
        r == Failure(ConfigError(SecretRequiredMessage)) && publisherClient == null
      ensures old(publisherClient) == null && !IsEmpty(NullableString(config.apiSecret)) ==>
        && r.Success? && fresh(r.value) && publisherClient == r.value
        && r.value.http == httpClient && r.value.logger == logger
        && config.apiSecret == Some(r.value.apiSecret)
    {
      if publisherClient == null {
        var created := PublisherClient.New(httpClient, logger, config.apiSecret);
        if created.Failure? {
          return created;
        }
        publisherClient := created.value;
      }
      r := Success(publisherClient);
    }

    /** advertiser(): build the facade on first use with the API key, then keep it. */
    method Advertiser() returns (c: AdvertiserClient)
      requires Valid()
      modifies this`advertiserClient
      ensures Valid()
      ensures advertiserClient == c
      ensures old(advertiserClient) != null ==> c == old(advertiserClient)
      ensures old(advertiserClient) == null ==>
        fresh(c) && c.http == httpClient && c.logger == logger && c.apiKey == config.apiKey
    {
      if advertiserClient == null {
        advertiserClient := new AdvertiserClient(httpClient, logger, config.apiKey);
      }
      c := advertiserClient;
    }
  }

  /** Two calls of publisher() on a healthy SDK with a secret give the very same facade. */
  method PublisherTwice(sdk: KlinkSDK) returns (first: Result<PublisherClient, SdkError>, second: Result<PublisherClient, SdkError>)
    requires sdk.Valid() && !IsEmpty(NullableString(sdk.config.apiSecret))
    modifies sdk
    ensures first.Success? && first == second
  {
    first := sdk.Publisher();
    second := sdk.Publisher();
  }

  /**
   * `$client->advertiser()->sendPostback($data)` on a valid SDK: the postback
   * goes to the route of the SDK's own API key and carries its credentials.
   */
  method PostbackThroughSdk(sdk: KlinkSDK, data: PhpArray, outcome: Outcome)
    returns (sent: Option<Wire>, r: Result<PhpArray, SdkError>)
    requires sdk.Valid()
    modifies sdk
    ensures sdk.Valid()
    ensures sent.Some? ==> Sends(sent.value, POST, PostbackRoute(sdk.config.apiKey), data, sdk.config)
    ensures sent.Some? ==>
      sent.value.options["headers"].entries["Authorization"] == PStr("Bearer " + sdk.config.apiKey)
  {
    var advertiser := sdk.Advertiser();
    sent, r := advertiser.SendPostback(data, outcome);
  }
}
