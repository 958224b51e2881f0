/**
 * Validator::validateConfig: an ordered chain of guards over the raw
 * configuration array. The first guard that fails decides the message.
 */
module Validation {
  import opened Wrappers
  import opened Php
  import opened Errors

  const ApiKeyRequired := "API key is required"
  const ApiKeyNotString := "API key must be a string"
  const ApiSecretNotString := "API secret must be a string"
  const BaseUrlNotString := "Base URL must be a string"
  const BaseUrlInvalid := "Base URL must be a valid URL"
  const TimeoutNotInteger := "Timeout must be an integer"
  const TimeoutNotPositive := "Timeout must be positive"
  const DebugNotBoolean := "Debug must be a boolean"

  // Each constraint on its own, independently of the order of the checks.

  /** apiKey is a string that `empty()` does not reject ("" and "0" are rejected). */
  predicate ApiKeyOk(config: PhpArray) {
    Lookup(config, "apiKey").PStr? && !IsEmptyAt(config, "apiKey")
  }

  /** An apiSecret, when set, is a string. */
  predicate ApiSecretOk(config: PhpArray) {
    IsSet(config, "apiSecret") ==> config["apiSecret"].PStr?
  }

  /** A baseUrl, when set, is a string that the URL filter accepts. */
  predicate BaseUrlOk(config: PhpArray, validUrl: string -> bool) {
    IsSet(config, "baseUrl") ==> config["baseUrl"].PStr? && validUrl(config["baseUrl"].s)
  }

  /** A timeoutMs, when set, is a positive integer. */
  predicate TimeoutOk(config: PhpArray) {
    IsSet(config, "timeoutMs") ==> config["timeoutMs"].PInt? && config["timeoutMs"].i > 0
  }

  /** A debug flag, when set, is a boolean. */
  predicate DebugOk(config: PhpArray) {
    IsSet(config, "debug") ==> config["debug"].PBool?
  }

  /** Every constraint holds. */
  predicate WellFormed(config: PhpArray, validUrl: string -> bool) {
    ApiKeyOk(config) && ApiSecretOk(config) && BaseUrlOk(config, validUrl)
    && TimeoutOk(config) && DebugOk(config)
  }

  /**
   * validateConfig. `None` means it returned normally; `Some(e)` is the
   * KlinkConfigException it threw. `validUrl` stands for
   * `filter_var($url, FILTER_VALIDATE_URL)`, which is not modelled.
   */
  function ValidateConfig(config: PhpArray, validUrl: string -> bool): (r: Option<SdkError>)
    // it throws exactly when some constraint is violated, and only config errors
    ensures r.None? <==> WellFormed(config, validUrl)
    ensures r.Some? ==> r.value.ConfigError?
    // the first violated constraint, in source order, names the message
    ensures !ApiKeyOk(config) ==>
      r == Some(ConfigError(if IsEmptyAt(config, "apiKey") then ApiKeyRequired else ApiKeyNotString))
    ensures ApiKeyOk(config) && !ApiSecretOk(config) ==>
      r == Some(ConfigError(ApiSecretNotString))
    ensures ApiKeyOk(config) && ApiSecretOk(config) && !BaseUrlOk(config, validUrl) ==>
      r == Some(ConfigError(if config["baseUrl"].PStr? then BaseUrlInvalid else BaseUrlNotString))
    ensures ApiKeyOk(config) && ApiSecretOk(config) && BaseUrlOk(config, validUrl)
            && !TimeoutOk(config) ==>
      r == Some(ConfigError(if config["timeoutMs"].PInt? then TimeoutNotPositive else TimeoutNotInteger))
    ensures ApiKeyOk(config) && ApiSecretOk(config) && BaseUrlOk(config, validUrl)
            && TimeoutOk(config) && !DebugOk(config) ==>
      r == Some(ConfigError(DebugNotBoolean))
  {
    if IsEmpty(Lookup(config, "apiKey")) then Some(ConfigError(ApiKeyRequired))
    else if !config["apiKey"].PStr? then Some(ConfigError(ApiKeyNotString))
    else if IsSet(config, "apiSecret") && !config["apiSecret"].PStr? then
      Some(ConfigError(ApiSecretNotString))
    else if IsSet(config, "baseUrl") && !config["baseUrl"].PStr? then
      Some(ConfigError(BaseUrlNotString))
    else if IsSet(config, "baseUrl") && !validUrl(config["baseUrl"].s) then
      Some(ConfigError(BaseUrlInvalid))
    else if IsSet(config, "timeoutMs") && !config["timeoutMs"].PInt? then
      Some(ConfigError(TimeoutNotInteger))
    else if IsSet(config, "timeoutMs") && config["timeoutMs"].i <= 0 then
      Some(ConfigError(TimeoutNotPositive))
    else if IsSet(config, "debug") && !config["debug"].PBool? then
      Some(ConfigError(DebugNotBoolean))
    else None
  }

  /** An absent, null, "" or "0" apiKey is reported as missing, whatever else is wrong. */
  lemma MissingApiKeyWins(config: PhpArray, validUrl: string -> bool)
    requires "apiKey" !in config || config["apiKey"] in {PNull, PStr(""), PStr("0")}
    ensures ValidateConfig(config, validUrl) == Some(ConfigError(ApiKeyRequired))
  {
  }

  /** Optional fields that are absent or null never cause a failure. */
  lemma NullOptionalsAccepted(config: PhpArray, validUrl: string -> bool)
    requires ApiKeyOk(config)
    requires forall k :: k in {"apiSecret", "baseUrl", "timeoutMs", "debug"} ==> Lookup(config, k) == PNull
    ensures ValidateConfig(config, validUrl).None?
  {
    assert Lookup(config, "apiSecret") == PNull;
    assert Lookup(config, "baseUrl") == PNull;
    assert Lookup(config, "timeoutMs") == PNull;
    assert Lookup(config, "debug") == PNull;
  }
}
