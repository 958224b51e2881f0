/**
 * Types\Config: the connection settings, filled in once from the raw array
 * with `??` defaults and only read afterwards.
 */
module Configuration {
  import opened Wrappers
  import opened Php
  import opened Errors

  const DefaultBaseUrl := "https://klink-quest.klink.finance/api"
  const DefaultTimeoutMs := 8000

  /** The five typed properties; each getter returns its field. */
  datatype Config = Config(
    apiKey: string,
    apiSecret: Option<string>,
    baseUrl: string,
    timeoutMs: int,
    debug: bool)

  /**
   * `$config[$k] ?? $default` assigned to a typed property. An absent or null
   * entry takes the default; a present value of the wrong type raises
   * \TypeError, as the file runs with strict types.
   */
  function StringOr(raw: PhpArray, k: string, default: string): (r: Result<string, SdkError>)
    ensures !IsSet(raw, k) ==> r == Success(default)
    ensures IsSet(raw, k) && raw[k].PStr? ==> r == Success(raw[k].s)
    ensures IsSet(raw, k) && !raw[k].PStr? ==> r == Failure(TypeError(k))
  {
    match Lookup(raw, k)
    case PNull => Success(default)
    case PStr(s) => Success(s)
    case _ => Failure(TypeError(k))
  }

  /** `$config[$k] ?? null` assigned to a `?string` property. */
  function NullableStringAt(raw: PhpArray, k: string): (r: Result<Option<string>, SdkError>)
    ensures !IsSet(raw, k) ==> r == Success(None)
    ensures IsSet(raw, k) && raw[k].PStr? ==> r == Success(Some(raw[k].s))
    ensures IsSet(raw, k) && !raw[k].PStr? ==> r == Failure(TypeError(k))
  {
    match Lookup(raw, k)
    case PNull => Success(None)
    case PStr(s) => Success(Some(s))
    case _ => Failure(TypeError(k))
  }

  /** `$config[$k] ?? $default` assigned to an `int` property. */
  function IntOr(raw: PhpArray, k: string, default: int): (r: Result<int, SdkError>)
    ensures !IsSet(raw, k) ==> r == Success(default)
    ensures IsSet(raw, k) && raw[k].PInt? ==> r == Success(raw[k].i)
    ensures IsSet(raw, k) && !raw[k].PInt? ==> r == Failure(TypeError(k))
  {
    match Lookup(raw, k)
    case PNull => Success(default)
    case PInt(i) => Success(i)
    case _ => Failure(TypeError(k))
  }

  /** `$config[$k] ?? $default` assigned to a `bool` property. */
  function BoolOr(raw: PhpArray, k: string, default: bool): (r: Result<bool, SdkError>)
    ensures !IsSet(raw, k) ==> r == Success(default)
    ensures IsSet(raw, k) && raw[k].PBool? ==> r == Success(raw[k].b)
    ensures IsSet(raw, k) && !raw[k].PBool? ==> r == Failure(TypeError(k))
  {
    match Lookup(raw, k)
    case PNull => Success(default)
    case PBool(b) => Success(b)
    case _ => Failure(TypeError(k))
  }

  /** The entry is absent, null or a string. */
  predicate StringFits(raw: PhpArray, k: string) {
    IsSet(raw, k) ==> raw[k].PStr?
  }

  /** The entry is absent, null or an integer. */
  predicate IntFits(raw: PhpArray, k: string) {
    IsSet(raw, k) ==> raw[k].PInt?
  }

  /** The entry is absent, null or a boolean. */
  predicate BoolFits(raw: PhpArray, k: string) {
    IsSet(raw, k) ==> raw[k].PBool?
  }

  /** Every entry can be stored in its typed property. */
  predicate Assignable(raw: PhpArray) {
    && StringFits(raw, "apiKey")
    && StringFits(raw, "apiSecret")
    && StringFits(raw, "baseUrl")
    && IntFits(raw, "timeoutMs")
    && BoolFits(raw, "debug")
  }

  /**
   * `new Config($config)`. Properties are assigned in declaration order, so
   * the first ill-typed entry names the \TypeError.
   */
  function NewConfig(raw: PhpArray): (r: Result<Config, SdkError>)
    ensures r.Success? <==> Assignable(raw)
    ensures r.Failure? ==> r.error.TypeError?
    // the first ill-typed entry, in declaration order, names the TypeError
    ensures !StringFits(raw, "apiKey") ==> r == Failure(TypeError("apiKey"))
    ensures StringFits(raw, "apiKey") && !StringFits(raw, "apiSecret") ==>
      r == Failure(TypeError("apiSecret"))
    ensures StringFits(raw, "apiKey") && StringFits(raw, "apiSecret") && !StringFits(raw, "baseUrl") ==>
      r == Failure(TypeError("baseUrl"))
    ensures StringFits(raw, "apiKey") && StringFits(raw, "apiSecret") && StringFits(raw, "baseUrl")
            && !IntFits(raw, "timeoutMs") ==>
      r == Failure(TypeError("timeoutMs"))
    ensures StringFits(raw, "apiKey") && StringFits(raw, "apiSecret") && StringFits(raw, "baseUrl")
            && IntFits(raw, "timeoutMs") && !BoolFits(raw, "debug") ==>
      r == Failure(TypeError("debug"))
    // absent or null entries take their defaults
    ensures r.Success? && !IsSet(raw, "apiKey") ==> r.value.apiKey == ""
    ensures r.Success? && !IsSet(raw, "apiSecret") ==> r.value.apiSecret == None
    ensures r.Success? && !IsSet(raw, "baseUrl") ==> r.value.baseUrl == DefaultBaseUrl
    ensures r.Success? && !IsSet(raw, "timeoutMs") ==> r.value.timeoutMs == DefaultTimeoutMs
    ensures r.Success? && !IsSet(raw, "debug") ==> r.value.debug == false
    // supplied values are stored verbatim
    ensures r.Success? && IsSet(raw, "apiKey") ==> PStr(r.value.apiKey) == raw["apiKey"]
    ensures r.Success? && IsSet(raw, "apiSecret") ==> NullableString(r.value.apiSecret) == raw["apiSecret"]
    ensures r.Success? && IsSet(raw, "baseUrl") ==> PStr(r.value.baseUrl) == raw["baseUrl"]
    ensures r.Success? && IsSet(raw, "timeoutMs") ==> PInt(r.value.timeoutMs) == raw["timeoutMs"]
    ensures r.Success? && IsSet(raw, "debug") ==> PBool(r.value.debug) == raw["debug"]
  {
    var apiKey := StringOr(raw, "apiKey", "");
    var apiSecret := NullableStringAt(raw, "apiSecret");
    var baseUrl := StringOr(raw, "baseUrl", DefaultBaseUrl);
    var timeoutMs := IntOr(raw, "timeoutMs", DefaultTimeoutMs);
    var debug := BoolOr(raw, "debug", false);
    if apiKey.Failure? then Failure(apiKey.error)
    else if apiSecret.Failure? then Failure(apiSecret.error)
    else if baseUrl.Failure? then Failure(baseUrl.error)
    else if timeoutMs.Failure? then Failure(timeoutMs.error)
    else if debug.Failure? then Failure(debug.error)
    else Success(Config(apiKey.value, apiSecret.value, baseUrl.value, timeoutMs.value, debug.value))
  }

  /** A Config is rebuilt unchanged from the array holding its own fields: every getter returns what was supplied. */
  lemma ConfigRoundTrip(c: Config)
    ensures NewConfig(ToRaw(c)) == Success(c)
  {
  }

  /** The raw array a caller would pass to build exactly this Config. */
  function ToRaw(c: Config): (raw: PhpArray)
    ensures IsSet(raw, "apiSecret") <==> c.apiSecret.Some?
  {
    map["apiKey" := PStr(c.apiKey), "apiSecret" := NullableString(c.apiSecret),
        "baseUrl" := PStr(c.baseUrl), "timeoutMs" := PInt(c.timeoutMs), "debug" := PBool(c.debug)]
  }
}
