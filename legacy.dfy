/** The shared part of the legacy client: the response envelopes, the result-selection rules the
    single-call methods pick from, the flattening of bulk envelopes, the configuration loader and
    the session bootstrap in `NewClient`.

    The HTTP exchange itself is not modelled. A call's outcome is an input `Reply`: either the
    call failed (transport or decoding error), or a response arrived, with the client library's
    verdict on whether its status is a success state and the decoded body. The library decodes
    the body into the success result only in a success state, so otherwise the caller sees the
    zero envelope. */
module Legacy {
  import opened Results

  /** `Status` of every envelope. */
  datatype Status = Status(requestUnixTime: int, responseStatus: string, errorCode: int, requestID: int)

  /** The Go zero value of `Status`. */
  const ZeroStatus := Status(0, "", 0, 0)

  predicate IsErrorStatus(s: Status) {
    s.responseStatus == "error"
  }

  /** `ErplyResponse[T]`. */
  datatype Envelope<T> = Envelope(status: Status, records: seq<T>)

  /** `ErplyBulkResponse[T]`: one inner envelope per submitted request. */
  datatype BulkEnvelope<T> = BulkEnvelope(status: Status, requests: seq<Envelope<T>>)

  /** The outcome of one HTTP call, as seen by the caller. */
  datatype Reply<B> = CallError(cause: string) | Response(successState: bool, body: B)

  /** What the success-result variable holds after the call returned without error. */
  function Decoded<T>(successState: bool, body: Envelope<T>): (e: Envelope<T>)
    ensures successState ==> e == body
    ensures !successState ==> e.status == ZeroStatus && e.records == []
  {
    if successState then body else Envelope(ZeroStatus, [])
  }

  /** The same for a bulk envelope. */
  function DecodedBulk<T>(successState: bool, body: BulkEnvelope<T>): (e: BulkEnvelope<T>)
    ensures successState ==> e == body
    ensures !successState ==> e.status == ZeroStatus && e.requests == []
  {
    if successState then body else BulkEnvelope(ZeroStatus, [])
  }

  // ---------------------------------------------------------------------------------------
  // Result selection of the single-call methods. Three different orders occur in the source.

  /** Records first, then the error status, then "not found" (`SaveIssuedCoupon`). */
  function RecordsFirst<T>(env: Envelope<T>): (r: Result<T>)
    ensures r.Ok? <==> |env.records| > 0
    ensures r.Ok? ==> r.value == env.records[0]
    ensures r == Err(ApiError(env.status.errorCode)) <==> env.records == [] && IsErrorStatus(env.status)
  {
    if |env.records| > 0 then Ok(env.records[0])
    else if IsErrorStatus(env.status) then Err(ApiError(env.status.errorCode))
    else Err(NoRecordsFound)
  }

  /** The error status first, then records, then "not found" (`SubtractRewardPoints`, `AddRewardPoints`). */
  function StatusFirst<T>(env: Envelope<T>): (r: Result<T>)
    ensures r.Ok? <==> !IsErrorStatus(env.status) && |env.records| > 0
    ensures r.Ok? ==> r.value == env.records[0]
    ensures r == Err(ApiError(env.status.errorCode)) <==> IsErrorStatus(env.status)
  {
    if IsErrorStatus(env.status) then Err(ApiError(env.status.errorCode))
    else if |env.records| > 0 then Ok(env.records[0])
    else Err(NoRecordsFound)
  }

  /** Records, then "not found"; the status is never looked at (`GetRewardPoints`). */
  function RecordsOnly<T>(env: Envelope<T>): (r: Result<T>)
    ensures r.Ok? <==> |env.records| > 0
    ensures r.Ok? ==> r.value == env.records[0]
    ensures r.Err? ==> r.error == NoRecordsFound
  {
    if |env.records| > 0 then Ok(env.records[0]) else Err(NoRecordsFound)
  }

  /** On a non-error status with at least one record, every rule returns the first record;
      on a non-error status without records, every rule reports "not found". */
  lemma RulesAgreeWithoutErrorStatus<T>(env: Envelope<T>)
    requires !IsErrorStatus(env.status)
    ensures |env.records| > 0 ==>
              RecordsFirst(env) == StatusFirst(env) == RecordsOnly(env) == Ok(env.records[0])
    ensures |env.records| == 0 ==>
              RecordsFirst(env) == StatusFirst(env) == RecordsOnly(env) == Err(NoRecordsFound)
  {
  }

  /** The status-first rule differs from the records-first rule exactly when an error status
      comes with records: then it reports the API error and drops the records. */
  lemma StatusFirstDiffersFromRecordsFirst<T>(env: Envelope<T>)
    ensures StatusFirst(env) != RecordsFirst(env) <==> IsErrorStatus(env.status) && |env.records| > 0
    ensures IsErrorStatus(env.status) ==> StatusFirst(env) == Err(ApiError(env.status.errorCode))
  {
  }

  /** The records-only rule differs from the records-first rule exactly when an error status
      comes without records: then it reports "not found" instead of the API error. */
  lemma RecordsOnlyDiffersFromRecordsFirst<T>(env: Envelope<T>)
    ensures RecordsOnly(env) != RecordsFirst(env) <==> IsErrorStatus(env.status) && |env.records| == 0
    ensures RecordsOnly(env) != Err(ApiError(env.status.errorCode))
  {
  }

  /** The records-only rule does not depend on the status at all. */
  lemma RecordsOnlyIgnoresStatus<T>(env: Envelope<T>, other: Status)
    ensures RecordsOnly(env) == RecordsOnly(env.(status := other))
  {
  }

  // ---------------------------------------------------------------------------------------
  // Flattening of bulk envelopes.

  /** The inner records of the envelopes, appended in envelope order. */
  function Concat<T>(envs: seq<Envelope<T>>): (c: seq<T>)
    ensures forall x :: x in c ==> exists i :: 0 <= i < |envs| && x in envs[i].records
  {
    if envs == [] then [] else Concat(envs[..|envs| - 1]) + envs[|envs| - 1].records
  }

  /** The number of inner records over all envelopes. */
  function TotalRecords<T>(envs: seq<Envelope<T>>): nat {
    if envs == [] then 0 else TotalRecords(envs[..|envs| - 1]) + |envs[|envs| - 1].records|
  }

  lemma {:induction false} ConcatLength<T>(envs: seq<Envelope<T>>)
    ensures |Concat(envs)| == TotalRecords(envs)
  {
    if envs != [] {
      ConcatLength(envs[..|envs| - 1]);
    }
  }

  lemma {:induction false} ConcatAppend<T>(a: seq<Envelope<T>>, b: seq<Envelope<T>>)
    ensures Concat(a + b) == Concat(a) + Concat(b)
    ensures TotalRecords(a + b) == TotalRecords(a) + TotalRecords(b)
    decreases |b|
  {
    if b == [] {
      assert a + b == a;
    } else {
      var b' := b[..|b| - 1];
      assert (a + b)[..|a + b| - 1] == a + b';
      assert (a + b)[|a + b| - 1] == b[|b| - 1];
      ConcatAppend(a, b');
      assert Concat(a + b) == Concat(a + b') + b[|b| - 1].records;
    }
  }

  /** Record `j` of envelope `i` lands at position (records of the envelopes before `i`) + `j`:
      the flattening keeps every record, in envelope order and in order within each envelope. */
  lemma {:induction false} ConcatAt<T>(envs: seq<Envelope<T>>, i: nat, j: nat)
    requires i < |envs| && j < |envs[i].records|
    ensures TotalRecords(envs[..i]) + j < |Concat(envs)|
    ensures Concat(envs)[TotalRecords(envs[..i]) + j] == envs[i].records[j]
  {
    assert envs == envs[..i] + [envs[i]] + envs[i + 1..];
    ConcatAppend(envs[..i] + [envs[i]], envs[i + 1..]);
    ConcatAppend(envs[..i], [envs[i]]);
    assert Concat([envs[i]]) == envs[i].records by {
      assert [envs[i]][..0] == [];
    }
    ConcatLength(envs[..i]);
  }

  /** Only the inner records matter: inner statuses (error or not) never change the flattening. */
  lemma {:induction false} ConcatIgnoresStatus<T>(envs: seq<Envelope<T>>, others: seq<Envelope<T>>)
    requires |envs| == |others|
    requires forall i :: 0 <= i < |envs| ==> envs[i].records == others[i].records
    ensures Concat(envs) == Concat(others)
  {
    if envs != [] {
      ConcatIgnoresStatus(envs[..|envs| - 1], others[..|others| - 1]);
    }
  }

  /** A batch whose inner envelopes are all empty flattens to nothing. */
  lemma {:induction false} ConcatOfEmpty<T>(envs: seq<Envelope<T>>)
    requires forall i :: 0 <= i < |envs| ==> envs[i].records == []
    ensures Concat(envs) == []
  {
    if envs != [] {
      ConcatOfEmpty(envs[..|envs| - 1]);
    }
  }

  /** One appending step of the loops that flatten a bulk response. */
  lemma ConcatStep<T>(envs: seq<Envelope<T>>, i: nat)
    requires i < |envs|
    ensures Concat(envs[..i + 1]) == Concat(envs[..i]) + envs[i].records
  {
    assert envs[..i + 1][..i] == envs[..i];
  }

  /** The flattening loop shared by the bulk methods that keep records as decoded. */
  method AppendAll<T>(requests: seq<Envelope<T>>) returns (out: seq<T>)
    ensures out == Concat(requests)
  {
    out := [];
    var i := 0;
    while i < |requests|
      invariant 0 <= i <= |requests|
      invariant out == Concat(requests[..i])
    {
      ConcatStep(requests, i);
      out := out + requests[i].records;
      i := i + 1;
    }
    assert requests[..i] == requests;
  }

  // ---------------------------------------------------------------------------------------
  // Configuration.

  datatype ClientConfig = ClientConfig(username: string, password: string, endpoint: string, clientCode: string)

  /** The environment variables the loader reads, in the order it checks them. */
  const RequiredVariables: seq<string> := ["ERPLY_USERNAME", "ERPLY_PASSWORD", "ERPLY_ENDPOINT", "ERPLY_CLIENTCODE"]

  /** `NewClientConfigFromEnv`, with the process environment passed in as a map. A variable counts
      as set when it is present, whatever its value (the empty string included). */
  function NewClientConfigFromEnv(env: map<string, string>): (r: Result<ClientConfig>)
    ensures r.Ok? <==> forall i :: 0 <= i < |RequiredVariables| ==> RequiredVariables[i] in env
    ensures r.Ok? ==> && "ERPLY_USERNAME" in env && "ERPLY_PASSWORD" in env
                      && "ERPLY_ENDPOINT" in env && "ERPLY_CLIENTCODE" in env
                      && r.value == ClientConfig(env["ERPLY_USERNAME"], env["ERPLY_PASSWORD"],
                                                 env["ERPLY_ENDPOINT"], env["ERPLY_CLIENTCODE"])
    ensures r.Err? ==> exists i :: 0 <= i < |RequiredVariables| && RequiredVariables[i] !in env
                                   && r.error == NotSet(RequiredVariables[i])
                                   && forall j :: 0 <= j < i ==> RequiredVariables[j] in env
  {
    if "ERPLY_USERNAME" !in env then
      assert RequiredVariables[0] == "ERPLY_USERNAME";
      Err(NotSet("ERPLY_USERNAME"))
    else if "ERPLY_PASSWORD" !in env then
      assert RequiredVariables[1] == "ERPLY_PASSWORD";
      Err(NotSet("ERPLY_PASSWORD"))
    else if "ERPLY_ENDPOINT" !in env then
      assert RequiredVariables[2] == "ERPLY_ENDPOINT";
      Err(NotSet("ERPLY_ENDPOINT"))
    else if "ERPLY_CLIENTCODE" !in env then
      assert RequiredVariables[3] == "ERPLY_CLIENTCODE";
      Err(NotSet("ERPLY_CLIENTCODE"))
    else
      Ok(ClientConfig(env["ERPLY_USERNAME"], env["ERPLY_PASSWORD"], env["ERPLY_ENDPOINT"], env["ERPLY_CLIENTCODE"]))
  }

  /** Only the four variables matter: two environments that agree on them give the same result. */
  lemma ConfigDependsOnlyOnRequired(env: map<string, string>, other: map<string, string>)
    requires forall i :: 0 <= i < |RequiredVariables| ==>
               (RequiredVariables[i] in env <==> RequiredVariables[i] in other)
               && (RequiredVariables[i] in env ==> env[RequiredVariables[i]] == other[RequiredVariables[i]])
    ensures NewClientConfigFromEnv(env) == NewClientConfigFromEnv(other)
  {
    assert RequiredVariables[0] == "ERPLY_USERNAME" && RequiredVariables[1] == "ERPLY_PASSWORD";
    assert RequiredVariables[2] == "ERPLY_ENDPOINT" && RequiredVariables[3] == "ERPLY_CLIENTCODE";
  }

  // ---------------------------------------------------------------------------------------
  // Session bootstrap.

  /** `VerifyUserRecord`. */
  datatype VerifyUserRecord = VerifyUserRecord(
    userID: string, userName: string, employeeID: string, employeeName: string,
    groupID: string, groupName: string, ipAddress: string, sessionKey: string,
    sessionLength: int, loginUrl: string, identityToken: string, token: string)

  /** An outgoing request: its URL and its query parameters. */
  datatype Request = Request(url: string, params: map<string, string>)

  /** `https://<endpoint>/api`. */
  function BaseURL(endpoint: string): (url: string)
    ensures |url| == |endpoint| + 12
    ensures url[..8] == "https://" && url[8..|url| - 4] == endpoint && url[|url| - 4..] == "/api"
  {
    "https://" + endpoint + "/api"
  }

  /** Different endpoints never share a base URL. */
  lemma BaseURLInjective(a: string, b: string)
    requires BaseURL(a) == BaseURL(b)
    ensures a == b
  {
    var u := BaseURL(a);
    assert a == u[8..|u| - 4];
  }

  /** The unauthenticated `verifyUser` call `NewClient` makes. */
  function VerifyUserRequest(config: ClientConfig): (req: Request)
    ensures req.url == BaseURL(config.endpoint)
    ensures req.params.Keys == {"request", "clientCode", "username", "password"}
    ensures req.params["request"] == "verifyUser"
    ensures req.params["clientCode"] == config.clientCode
    ensures req.params["username"] == config.username && req.params["password"] == config.password
  {
    Request(BaseURL(config.endpoint),
            map["request" := "verifyUser", "clientCode" := config.clientCode,
                "username" := config.username, "password" := config.password])
  }

  /** The part of the HTTP client's state that `NewClient` configures: the query parameters and
      headers sent with every request, and the base URL relative requests resolve against. */
  class Client {
    var commonQueryParams: map<string, string>
    var commonHeaders: map<string, string>
    var baseURL: string

    /** A fresh client, before any default has been installed. */
    constructor ()
      ensures commonQueryParams == map[] && commonHeaders == map[] && baseURL == ""
    {
      commonQueryParams := map[];
      commonHeaders := map[];
      baseURL := "";
    }

    method SetCommonQueryParam(key: string, value: string)
      modifies this
      ensures commonQueryParams == old(commonQueryParams)[key := value]
      ensures commonHeaders == old(commonHeaders) && baseURL == old(baseURL)
    {
      commonQueryParams := commonQueryParams[key := value];
    }

    /** Sets a header under exactly the given spelling (no canonicalisation). */
    method SetCommonHeaderNonCanonical(key: string, value: string)
      modifies this
      ensures commonHeaders == old(commonHeaders)[key := value]
      ensures commonQueryParams == old(commonQueryParams) && baseURL == old(baseURL)
    {
      commonHeaders := commonHeaders[key := value];
    }

    method SetBaseURL(url: string)
      modifies this
      ensures baseURL == url
      ensures commonQueryParams == old(commonQueryParams) && commonHeaders == old(commonHeaders)
    {
      baseURL := url;
    }
  }

  /** What `NewClient` can end in. `NoClientNoError` is the `(nil, nil)` return; `IndexPanic` is the
      run-time panic of indexing the first record of an empty record list. */
  datatype Bootstrap = Ready(client: Client) | Failed(error: Error) | NoClientNoError | IndexPanic

  /** `NewClient`: `verify` stands for the HTTP client answering the `verifyUser` request. */
  method NewClient(config: ClientConfig, verify: Request -> Reply<Envelope<VerifyUserRecord>>) returns (b: Bootstrap)
    ensures var reply := verify(VerifyUserRequest(config));
      && (b.Failed? <==> reply.CallError?)
      && (b.Failed? ==> b.error == Transport(reply.cause))
      && (b.NoClientNoError? <==> reply.Response? && !reply.successState)
      && (b.IndexPanic? <==> reply.Response? && reply.successState && reply.body.records == [])
    ensures var reply := verify(VerifyUserRequest(config));
      b.Ready? ==>
        && fresh(b.client)
        && reply.Response? && reply.successState && |reply.body.records| > 0
        && b.client.commonQueryParams == map["sessionKey" := reply.body.records[0].sessionKey,
                                             "clientCode" := config.clientCode]
        && b.client.commonHeaders == map["accept" := "application/json"]
        && b.client.baseURL == BaseURL(config.endpoint) == VerifyUserRequest(config).url
  {
    var c := new Client();
    var reply := verify(VerifyUserRequest(config));
    if reply.CallError? {
      return Failed(Transport(reply.cause));
    }
    if reply.successState {
      var vUser := Decoded(reply.successState, reply.body);
      if |vUser.records| == 0 {
        return IndexPanic;
      }
      var sessionKey := vUser.records[0].sessionKey;
      c.SetCommonQueryParam("sessionKey", sessionKey);
      c.SetCommonQueryParam("clientCode", config.clientCode);
      c.SetCommonHeaderNonCanonical("accept", "application/json");
      c.SetBaseURL(BaseURL(config.endpoint));
      return Ready(c);
    }
    return NoClientNoError;
  }
}
