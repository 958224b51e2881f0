# Klink PHP SDK — verified model of the request core

This project models the decision rules of the Klink PHP SDK, a thin client
for the Klink affiliate-marketing HTTP API:

- configuration validation (`Validator::validateConfig`), an ordered chain
  of guards in which the first failure names the error;
- `Config`, which fills absent or null entries with defaults and stores the
  rest in typed properties;
- `HttpClient`, which shapes each request (payload entry and
  authentication headers) and turns a transport outcome into decoded data,
  an API error, or a classified auth/API/network error;
- the Publisher facade (secret guard, the operation → method/path/params
  table, the `reload` rule) and the Advertiser facade (the required-field
  check of `sendPostback`, the postback route, the health check);
- `KlinkSDK::create` (validate, build, health-check, wrap failures) and the
  memoised `publisher()` / `advertiser()` accessors.

PHP values are the datatype `Php.PhpValue` with `empty`, `isset` and
truthiness written out, so that `"0"` is empty and `null` is not set. The
transport is a parameter `Http.Outcome`: a response with a status and a body
that either decoded or did not, or a transport exception with a code and a
message. Every request handed to the transport is returned as an
`Http.Wire` value. "No request was sent" is therefore an absent `Wire`. The
URL filter `filter_var(..., FILTER_VALIDATE_URL)` is the parameter
`validUrl: string -> bool`. The exception classes are folded into
`Errors.SdkError`, together with the PHP `TypeError` that strict typing
raises: `Config` stores into typed properties, and `request` is declared to
return an `array`, so a body that decodes to a scalar or null is a
`TypeError`. `create` catches only `\Exception`, so such an error escapes it
unwrapped.

Files: `wrappers.dfy` (Option/Result), `php.dfy` (PHP values), `errors.dfy`
(the exceptions), `validator.dfy`, `config.dfy`, `logger.dfy`, `http.dfy`,
`publisher.dfy`, `advertiser.dfy`, `sdk.dfy`.

Three behaviours of the code that are easy to misread:

- A missing postback field raises `\InvalidArgumentException`, not a
  Klink config error.
- Every transport code below 400 becomes a network error, not only a
  missing code.
- A secret of "0" counts as absent: `empty` and truthiness both reject it.

## Model

| member | source | states |
|---|---|---|
| Validation.ValidateConfig | php-sdk/src/Utils/Validator.php:11-48 | It throws exactly when one of the five field constraints is violated, and only config errors. The message is that of the first violated constraint in source order: an empty apiKey ("" or "0" included) is "required" and a non-empty non-string apiKey "must be a string"; a set non-string secret fails; a set baseUrl fails as "not a string" or "not a valid URL"; a set timeout fails as "not an integer" or "not positive"; a set non-boolean debug fails. |
| Validation.MissingApiKeyWins | php-sdk/src/Utils/Validator.php:13-15 | An absent, null, "" or "0" apiKey yields "API key is required", whatever the other fields hold. |
| Validation.NullOptionalsAccepted | php-sdk/src/Utils/Validator.php:21-47 | With a good apiKey, optional fields that are absent or null never cause a failure. |
| Configuration.StringOr | php-sdk/src/Types/Config.php:17-19 | `??` into a string property: absent or null gives the default, a string is kept, any other value is a TypeError. |
| Configuration.NullableStringAt | php-sdk/src/Types/Config.php:18 | `?? null` into a `?string` property: absent or null gives null, a string is kept, anything else is a TypeError. |
| Configuration.IntOr | php-sdk/src/Types/Config.php:20 | `??` into an int property: absent or null gives the default, an integer is kept, anything else is a TypeError. |
| Configuration.BoolOr | php-sdk/src/Types/Config.php:21 | `??` into a bool property: absent or null gives the default, a boolean is kept, anything else is a TypeError. |
| Configuration.NewConfig | php-sdk/src/Types/Config.php:15-22 | Construction succeeds exactly when every entry fits its typed property. Absent or null entries become "", null, the production URL, 8000 and false. Supplied values are stored verbatim. Otherwise the TypeError names the first ill-typed entry in declaration order. |
| Configuration.ConfigRoundTrip | php-sdk/src/Types/Config.php:15-47 | Building a Config from the array of its own fields gives back that Config, so every getter returns what was supplied. |
| Logging.Logger.constructor | php-sdk/src/Utils/Logger.php:11-14 | The logger keeps its debug flag. |
| Http.ClassifyFailure | php-sdk/src/Core/HttpClient.php:81-115 | A transport exception becomes exactly one error kind. Codes 401/403 give an auth error with that code and the cause, checked before the 4xx range. Other codes ≥ 400 give an API error with statusCode = code and the "API error: " prefix below 500 or the "Server error: " prefix from 500 on. Codes < 400 (0 included) give a network error with code 0 that wraps the cause. Every result is a Klink exception. |
| Http.Receive | php-sdk/src/Core/HttpClient.php:61-115 | A body that does not decode gives the API error "Invalid JSON response from API" with the response status, and is not reclassified. A decoded array is returned unchanged. A transport exception is classified. |
| Http.HttpClient.constructor | php-sdk/src/Core/HttpClient.php:21-30 | The client keeps the given config and logger. |
| Http.HttpClient.BuildHeaders | php-sdk/src/Core/HttpClient.php:121-134 | Accept and Content-Type are application/json and Authorization is "Bearer " + apiKey. X-API-Secret is present exactly when the secret is truthy, and then equals it. No other header is present. |
| Http.HttpClient.Request | php-sdk/src/Core/HttpClient.php:51-116 | The request keeps its method and path. Only the `headers` option is written, and it holds the authentication headers. Every other option is passed on unchanged. The result is that of `Receive`. |
| Http.HttpClient.Get | php-sdk/src/Core/HttpClient.php:35-38 | A GET whose options are exactly the query (the params, unchanged) and the headers. |
| Http.HttpClient.Post | php-sdk/src/Core/HttpClient.php:43-46 | A POST whose options are exactly the JSON body (the data, unchanged) and the headers. |
| Publisher.ReloadParams | php-sdk/src/Core/PublisherClient.php:70 | The `reload` parameter is present, and true, exactly when reload is requested; nothing else is sent. |
| Publisher.CallFor | php-sdk/src/Core/PublisherClient.php:32-101 | Only sendTestPostback is a POST. Filters and bodies pass through unchanged. Countries and categories send the reload parameters. healthCheck is GET /health with no params. Every other path lies under /v1/publisher/. |
| Publisher.CallForInjective | php-sdk/src/Core/PublisherClient.php:32-101 | Two operations that make the same call are the same operation with the same arguments. |
| Publisher.PublisherClient.constructor | php-sdk/src/Core/PublisherClient.php:24-26 | Stores the transport, the logger and the secret. |
| Publisher.PublisherClient.New | php-sdk/src/Core/PublisherClient.php:16-27 | Construction fails with "API secret is required for Publisher API access" exactly when the secret is null, "" or "0". Otherwise it yields a new facade holding the given transport, logger and secret. |
| Publisher.PublisherClient.Perform | php-sdk/src/Core/PublisherClient.php:32-101 | Each operation sends exactly its call through the shared transport and returns the transport's result. |
| Advertiser.FirstMissingIsFirst | php-sdk/src/Core/AdvertiserClient.php:37-51 | The field search finds nothing exactly when every required key is set. When it finds a key, that key is unset and every key before it is set. |
| Advertiser.NullIsMissing | php-sdk/src/Core/AdvertiserClient.php:48 | Keys holding false or "" count as present. A key holding null counts as missing. |
| Advertiser.PostbackRoute | php-sdk/src/Core/AdvertiserClient.php:56-59 | The route is "/v1/advertiser/", then the API key, then "/postback", and nothing else. |
| Advertiser.PostbackRouteInjective | php-sdk/src/Core/AdvertiserClient.php:56-59 | Distinct API keys give distinct postback routes. |
| Advertiser.AdvertiserClient.constructor | php-sdk/src/Core/AdvertiserClient.php:15-20 | Stores the transport, the logger and the API key. |
| Advertiser.AdvertiserClient.HealthCheck | php-sdk/src/Core/AdvertiserClient.php:25-29 | A GET of /health with no parameters. |
| Advertiser.AdvertiserClient.SendPostback | php-sdk/src/Core/AdvertiserClient.php:34-60 | No request is sent exactly when a required key is unset. The error is then the InvalidArgumentException naming the first unset key in source order. Otherwise it POSTs the data unchanged to the API key's postback route and returns the transport's result. |
| Sdk.HealthGate | php-sdk/src/KlinkSDK.php:52-66 | The health check passes exactly when the response decodes to an array whose status is set and is "ok". A bad status or any exception is rethrown as "Failed to initialize SDK: " + the inner message, with the inner exception as previous. A TypeError passes through unwrapped. |
| Sdk.ValidatedConfigConstructs | php-sdk/src/KlinkSDK.php:44-47 | A validated configuration always builds a Config, with a non-empty key and a positive timeout. |
| Sdk.CreateDecision | php-sdk/src/KlinkSDK.php:41-70 | A validation error is thrown as it is. Otherwise creation succeeds exactly when the health response decodes and says "ok", and the SDK then holds the Config built from the input. Every \Exception after validation is wrapped with the "Failed to initialize SDK: " prefix. The one TypeError, from a health body that decodes to a non-array, passes through unwrapped. |
| Sdk.UnreachableServerFails | php-sdk/tests/KlinkSDKTest.php:15-20 | With an unreachable server, creation fails. For a valid configuration the error wraps the network error. |
| Sdk.KlinkSDK.constructor | php-sdk/src/KlinkSDK.php:22-32 | A new SDK is valid (Valid: its HttpClient is built on its own Config and Logger, and every memoised facade shares them and holds the matching credential): it holds the config, one new logger, and one new HttpClient built on both. No facade exists yet. |
| Sdk.KlinkSDK.Create | php-sdk/src/KlinkSDK.php:41-70 | The health request is sent exactly when validation passes, as a GET of /health with no params. The result agrees with CreateDecision. A success is a new valid SDK with no facades, whose fresh logger and HttpClient are built on its own Config. |
| Sdk.KlinkSDK.Publisher | php-sdk/src/KlinkSDK.php:78-89 | Once built, the same facade is returned on every call. The first successful call builds it on the SDK's own HttpClient and Logger with the config's secret. A refused secret throws and memoises nothing. The SDK stays valid. |
| Sdk.KlinkSDK.Advertiser | php-sdk/src/KlinkSDK.php:96-107 | Once built, the same facade is returned on every call. The first call builds it on the SDK's own HttpClient and Logger with the config's API key. The SDK stays valid. |
| Sdk.PostbackThroughSdk | php-sdk/examples/advertiser_example.php:17-34 | A postback sent through a valid SDK's advertiser goes to the route of the SDK's own API key. It carries the SDK's own credentials, including "Bearer " + apiKey. |
| Sdk.PublisherTwice | php-sdk/src/KlinkSDK.php:78-89 | With a usable secret, two calls of publisher() return the identical facade. |

## Left out

- The Guzzle transport, TLS, the joining of `base_uri` and path, and the timeout conversion from milliseconds to seconds (a float division). The transport is the abstract `Http.Outcome` parameter.
- `json_decode` itself. Its result is part of the outcome: "does not decode" or a decoded PHP value.
- `FILTER_VALIDATE_URL`. It is the uninterpreted parameter `validUrl`.
- Logging (`Utils/Logger.php`). It writes to stderr and never changes a result, so every `info`/`debug`/`error` call is a no-op here. The logger keeps only its debug flag.
- The `responseData` of `KlinkAPIException`. No path of the core sets it.
- PHP's 64-bit integer bounds. Integers are unbounded. Floats are reals without NaN or infinities. Objects in arrays are the opaque `PObject`.
- The insertion order of PHP arrays, and whether an array is a list or an object when it is encoded as JSON. Arrays are maps, so "passed on unchanged" means the same keys and values.
- Concurrent use of one SDK. The code is single-threaded.
- The examples and the test file are used only as evidence for the properties.
- The text of PHP's own TypeError messages. A TypeError is identified only by the slot it concerns.
