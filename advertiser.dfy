/**
 * Core\AdvertiserClient: a health check, and postbacks whose required keys
 * are checked one by one before anything is sent. The API key doubles as
 * the advertiser's identifier in the route.
 */
module Advertiser {
  import opened Wrappers
  import opened Php
  import opened Errors
  import opened Logging
  import opened Http

  /** The keys a postback must set, in the order they are checked. */
  const RequiredFields: seq<string> :=
    ["event_name", "offer_id", "sub1", "tx_id", "isChargeback", "chargebackReason", "isTest"]

  const MissingFieldPrefix := "Missing required field: "

  /** The first of `fields` that `data` does not set (`isset`), if any. */
  function FirstMissing(data: PhpArray, fields: seq<string>): (missing: Option<string>)
  {
    if fields == [] then None
    else if !IsSet(data, fields[0]) then Some(fields[0])
    else FirstMissing(data, fields[1..])
  }

  /**
   * FirstMissing finds the earliest unset field: there is none exactly when
   * every field is set, and the one it names is unset with every field before
   * it set.
   */
  lemma {:induction false} FirstMissingIsFirst(data: PhpArray, fields: seq<string>)
    ensures FirstMissing(data, fields).None? <==>
      forall i :: 0 <= i < |fields| ==> IsSet(data, fields[i])
    ensures FirstMissing(data, fields).Some? ==>
      exists i :: 0 <= i < |fields| && fields[i] == FirstMissing(data, fields).value
        && !IsSet(data, fields[i]) && forall j :: 0 <= j < i ==> IsSet(data, fields[j])
  {
    if fields != [] && IsSet(data, fields[0]) {
      FirstMissingIsFirst(data, fields[1..]);
      if FirstMissing(data, fields).None? {
        forall i | 0 <= i < |fields| ensures IsSet(data, fields[i]) {
          if i > 0 { assert fields[i] == fields[1..][i - 1]; }
        }
      } else {
        var k :| 0 <= k < |fields[1..]| && fields[1..][k] == FirstMissing(data, fields).value
          && !IsSet(data, fields[1..][k]) && forall j :: 0 <= j < k ==> IsSet(data, fields[1..][j]);
        assert fields[k + 1] == fields[1..][k];
        forall j | 0 <= j < k + 1 ensures IsSet(data, fields[j]) {
          if j > 0 { assert fields[j] == fields[1..][j - 1]; }
        }
      }
    } else if fields != [] {
      assert fields[0] == FirstMissing(data, fields).value;
    }
  }

  /** A key holding null counts as missing, while false and "" count as present. */
  lemma NullIsMissing(data: PhpArray)
    requires forall k :: k in RequiredFields ==> k in data && data[k] in {PBool(false), PStr("")}
    ensures FirstMissing(data, RequiredFields).None?
    ensures FirstMissing(data["sub1" := PNull], RequiredFields) == Some("sub1")
  {
    FirstMissingIsFirst(data, RequiredFields);
    var d := data["sub1" := PNull];
    FirstMissingIsFirst(d, RequiredFields);
    assert RequiredFields[2] == "sub1" && !IsSet(d, RequiredFields[2]);
    var i :| 0 <= i < |RequiredFields| && RequiredFields[i] == FirstMissing(d, RequiredFields).value
      && !IsSet(d, RequiredFields[i]) && forall j :: 0 <= j < i ==> IsSet(d, RequiredFields[j]);
    assert i == 2 by {
      assert IsSet(d, RequiredFields[0]) && IsSet(d, RequiredFields[1]);
      assert forall j :: 3 <= j < |RequiredFields| ==> IsSet(d, RequiredFields[j]);
    }
  }

  /** `"/v1/advertiser/{$apiKey}/postback"` */
  function PostbackRoute(apiKey: string): (path: string)
    ensures |path| == |"/v1/advertiser/"| + |apiKey| + |"/postback"|
    ensures path[..|"/v1/advertiser/"|] == "/v1/advertiser/"
    ensures path[|"/v1/advertiser/"|..|"/v1/advertiser/"| + |apiKey|] == apiKey
    ensures path[|"/v1/advertiser/"| + |apiKey|..] == "/postback"
  {
    "/v1/advertiser/" + apiKey + "/postback"
  }

  /** Distinct advertisers post to distinct routes. */
  lemma PostbackRouteInjective(a: string, b: string)
    requires PostbackRoute(a) == PostbackRoute(b)
    ensures a == b
  {
  }

  class AdvertiserClient {
    const http: HttpClient
    const logger: Logger
    const apiKey: string

    constructor (http: HttpClient, logger: Logger, apiKey: string)
      ensures this.http == http && this.logger == logger && this.apiKey == apiKey
    {
      this.http := http;
      this.logger := logger;
      this.apiKey := apiKey;
    }

    /** healthCheck: a GET of /health with no parameters. */
    method HealthCheck(outcome: Outcome) returns (sent: Wire, r: Result<PhpArray, SdkError>)
      ensures Sends(sent, GET, "/health", map[], http.config)
      ensures r == Receive(outcome)
    {
      sent, r := http.Get("/health", map[], outcome);
    }

    /**
     * sendPostback. `sent` is the request handed to the transport, if one
     * was: a missing field raises before any request exists.
     */
    method SendPostback(data: PhpArray, outcome: Outcome)
      returns (sent: Option<Wire>, r: Result<PhpArray, SdkError>)
      ensures sent.None? <==> exists i :: 0 <= i < |RequiredFields| && !IsSet(data, RequiredFields[i])
      ensures sent.None? <==> FirstMissing(data, RequiredFields).Some?
      ensures sent.None? ==>
        r == Failure(InvalidArgument(MissingFieldPrefix + FirstMissing(data, RequiredFields).value))
      ensures sent.Some? ==> Sends(sent.value, POST, PostbackRoute(apiKey), data, http.config)
      ensures sent.Some? ==> r == Receive(outcome)
    {
      FirstMissingIsFirst(data, RequiredFields);
      var i := 0;
      while i < |RequiredFields|
        invariant 0 <= i <= |RequiredFields|
        invariant FirstMissing(data, RequiredFields) == FirstMissing(data, RequiredFields[i..])
      {
        var field := RequiredFields[i];
        if !IsSet(data, field) {
          return None, Failure(InvalidArgument(MissingFieldPrefix + field));
        }
        assert RequiredFields[i..][1..] == RequiredFields[i + 1..];
        i := i + 1;
      }
      var wire;
      wire, r := http.Post(PostbackRoute(apiKey), data, outcome);
      sent := Some(wire);
    }
  }
}
