/** The reward-point operations of the customer service: get, subtract and add, each as a
    single call (query-string request, one envelope back) and as a bulk call (JSON array of
    requests, one inner envelope per request back).

    The HTTP call is a parameter: `call` maps the encoded request to the reply the client
    library hands back. */
module Customer {
  import opened Results
  import opened Encoding
  import opened Legacy

  /** `RewardPoints`. Its `CustomerID` field has no JSON tag: the decoder fills it from whatever
      key matches "CustomerID" case-insensitively, and the facade may overwrite it. */
  datatype RewardPoints = RewardPoints(points: Float, customerID: int)

  /** `SubtractedRewardPoints`. */
  datatype SubtractedRewardPoints = SubtractedRewardPoints(
    customerID: int, remainingPoints: Float, subtractedPoints: Float, transactionID: int)

  const GetOperation := "getCustomerRewardPoints"
  const SubtractOperation := "subtractCustomerRewardPoints"
  const AddOperation := "addCustomerRewardPoints"

  /** The two keys every customer options object gets on the bulk path. */
  function RequestStamps(operation: string, customerID: int): seq<Field> {
    [Field("requestName", StrV(operation), false), Field("requestID", IntV(customerID), false)]
  }

  // ---------------------------------------------------------------------------------------
  // getCustomerRewardPoints

  datatype GetRewardPointOpts = GetRewardPointOpts(customerID: int)

  /** The tagged fields of `GetRewardPointOpts`; `customerID` is not `omitempty`. */
  function GetRewardPointFields(o: GetRewardPointOpts): (fs: seq<Field>)
    ensures WellFormed(fs)
  {
    [Field("customerID", IntV(o.customerID), false)]
  }

  /** The query string of `GetRewardPoints`: `customerID` is always sent, even when 0. */
  function GetRewardPointsQuery(o: GetRewardPointOpts): (q: Object)
    ensures q.Keys == {"customerID", "request"}
    ensures q["customerID"] == IntV(o.customerID) && q["request"] == StrV(GetOperation)
  {
    QueryExact(GetRewardPointFields(o), GetOperation);
    Query(GetRewardPointFields(o), GetOperation)
  }

  /** `GetRewardPointOpts.MarshalJSON`: never fails, and carries the customer id twice, once as
      `customerID` and once as the correlation id `requestID`. */
  function GetRewardPointsMarshalJSON(o: GetRewardPointOpts): (r: Result<Object>)
    ensures r.Ok?
    ensures r.value.Keys == {"customerID", "requestName", "requestID"}
    ensures r.value["customerID"] == IntV(o.customerID) && r.value["requestID"] == IntV(o.customerID)
    ensures r.value["requestName"] == StrV(GetOperation)
  {
    var id := IntV(o.customerID);
    var all := GetRewardPointFields(o) + RequestStamps(GetOperation, o.customerID);
    assert all[1..][1..][1..] == [];
    assert Encode(all[1..][1..]) == map["requestID" := id];
    assert Encode(all[1..]) == map["requestID" := id, "requestName" := StrV(GetOperation)];
    assert Encode(all) == map["requestID" := id, "requestName" := StrV(GetOperation), "customerID" := id];
    MarshalObject(all)
  }

  /** `GetRewardPoints`: the first record, stamped with the requested customer id. The status is
      never inspected, so an error status without records still reads as "not found". */
  function GetRewardPoints(opts: GetRewardPointOpts, call: Object -> Reply<Envelope<RewardPoints>>): (r: Result<RewardPoints>)
    ensures var reply := call(GetRewardPointsQuery(opts));
      && (reply.CallError? ==> r == Err(Transport(reply.cause)))
      && (reply.Response? ==>
            var env := Decoded(reply.successState, reply.body);
            && (r.Ok? <==> |env.records| > 0)
            && (r.Ok? ==> r.value == env.records[0].(customerID := opts.customerID))
            && (r.Err? ==> r.error == NoRecordsFound))
  {
    match call(GetRewardPointsQuery(opts))
    case CallError(cause) => Err(Transport(cause))
    case Response(successState, body) =>
      match RecordsOnly(Decoded(successState, body))
      case Ok(first) => Ok(first.(customerID := opts.customerID))
      case Err(e) => Err(e)
  }

  /** The JSON array `BulkGetRewardPoints` sends; encoding it cannot fail. */
  function BulkGetRewardPointsPayload(opts: seq<GetRewardPointOpts>): (r: Result<seq<Object>>)
    ensures r.Ok? && |r.value| == |opts|
    ensures forall i :: 0 <= i < |opts| ==> r.value[i] == GetRewardPointsMarshalJSON(opts[i]).value
  {
    MarshalArray(opts, GetRewardPointsMarshalJSON)
  }

  /** The overwrite `BulkGetRewardPoints` applies to one inner envelope: only its first record
      takes the echoed `requestID` as its customer id. */
  function Restamp(env: Envelope<RewardPoints>): (e: Envelope<RewardPoints>)
    ensures e.status == env.status && |e.records| == |env.records|
    ensures |env.records| > 0 ==> e.records[0] == env.records[0].(customerID := env.status.requestID)
    ensures forall j :: 0 < j < |env.records| ==> e.records[j] == env.records[j]
  {
    if |env.records| > 0 then
      env.(records := env.records[0 := env.records[0].(customerID := env.status.requestID)])
    else env
  }

  function RestampAll(envs: seq<Envelope<RewardPoints>>): (out: seq<Envelope<RewardPoints>>)
    ensures |out| == |envs| && forall i :: 0 <= i < |envs| ==> out[i] == Restamp(envs[i])
  {
    seq(|envs|, i requires 0 <= i < |envs| => Restamp(envs[i]))
  }

  lemma RestampAllPrefix(envs: seq<Envelope<RewardPoints>>, i: nat)
    requires i <= |envs|
    ensures RestampAll(envs)[..i] == RestampAll(envs[..i])
  {
  }

  /** Restamping changes no record count. */
  lemma {:induction false} RestampKeepsTotals(envs: seq<Envelope<RewardPoints>>)
    ensures TotalRecords(RestampAll(envs)) == TotalRecords(envs)
  {
    if envs != [] {
      var n := |envs| - 1;
      RestampAllPrefix(envs, n);
      RestampKeepsTotals(envs[..n]);
    }
  }

  /** Where each record of a bulk "get" lands: record `j` of inner envelope `i` sits at position
      (records of the envelopes before `i`) + `j`; the first record of each envelope carries that
      envelope's echoed `requestID`, every later one keeps its decoded customer id. */
  lemma BulkGetRewardPointsLayout(envs: seq<Envelope<RewardPoints>>, i: nat, j: nat)
    requires i < |envs| && j < |envs[i].records|
    ensures TotalRecords(envs[..i]) + j < |Concat(RestampAll(envs))|
    ensures var rec := Concat(RestampAll(envs))[TotalRecords(envs[..i]) + j];
      && (j == 0 ==> rec == envs[i].records[0].(customerID := envs[i].status.requestID))
      && (j > 0 ==> rec == envs[i].records[j])
  {
    var stamped := RestampAll(envs);
    ConcatAt(stamped, i, j);
    RestampAllPrefix(envs, i);
    RestampKeepsTotals(envs[..i]);
  }

  /** The output of a bulk "get" holds as many records as the inner envelopes together. */
  lemma BulkGetRewardPointsLength(envs: seq<Envelope<RewardPoints>>)
    ensures |Concat(RestampAll(envs))| == TotalRecords(envs)
  {
    ConcatLength(RestampAll(envs));
    RestampKeepsTotals(envs);
  }

  /** `BulkGetRewardPoints`. */
  method BulkGetRewardPoints(opts: seq<GetRewardPointOpts>, call: seq<Object> -> Reply<BulkEnvelope<RewardPoints>>)
    returns (r: Result<seq<RewardPoints>>)
    ensures var reply := call(BulkGetRewardPointsPayload(opts).value);
      && (reply.CallError? ==> r == Err(Transport(reply.cause)))
      && (reply.Response? ==>
            r == Ok(Concat(RestampAll(DecodedBulk(reply.successState, reply.body).requests))))
  {
    // Marshalling these options cannot fail, so the source's early return on a marshal error is never taken.
    var payload := BulkGetRewardPointsPayload(opts);
    var reply := call(payload.value);
    if reply.CallError? {
      return Err(Transport(reply.cause));
    }
    var requests := DecodedBulk(reply.successState, reply.body).requests;
    var out: seq<RewardPoints> := [];
    var i := 0;
    while i < |requests|
      invariant 0 <= i <= |requests|
      invariant out == Concat(RestampAll(requests[..i]))
    {
      RestampAllPrefix(requests, i + 1);
      RestampAllPrefix(requests, i);
      ConcatStep(RestampAll(requests), i);
      var res := requests[i];
      if |res.records| > 0 {
        res := res.(records := res.records[0 := res.records[0].(customerID := res.status.requestID)]);
        out := out + res.records;
      }
      i := i + 1;
    }
    assert requests[..i] == requests;
    r := Ok(out);
  }

  // ---------------------------------------------------------------------------------------
  // subtractCustomerRewardPoints

  datatype SubtractRewardPointsOpts = SubtractRewardPointsOpts(
    customerID: int, campaignID: int, warehouseID: int, salepointID: int, salespersonID: int,
    points: Float, subtractedUnixTime: int, issuedCouponID: int, description: string)

  /** The tagged fields of `SubtractRewardPointsOpts`; every one is `omitempty`. */
  function SubtractRewardPointsFields(o: SubtractRewardPointsOpts): (fs: seq<Field>)
    ensures WellFormed(fs)
    ensures forall f :: f in fs ==> f.omitEmpty
    ensures (forall f :: f in fs ==> Encodable(f)) <==> o.points.Finite?
  {
    var fields :=
    [ Field("customerID", IntV(o.customerID), true),
      Field("campaignID", IntV(o.campaignID), true),
      Field("warehouseID", IntV(o.warehouseID), true),
      Field("salepointID", IntV(o.salepointID), true),
      Field("salespersonID", IntV(o.salespersonID), true),
      Field("points", FloatV(o.points), true),
      Field("subtractedUnixTime", IntV(o.subtractedUnixTime), true),
      Field("issuedCouponID", IntV(o.issuedCouponID), true),
      Field("description", StrV(o.description), true) ];
    assert Field("points", FloatV(o.points), true) in fields;
    fields
  }

  /** The query string of `SubtractRewardPoints`: each field present exactly when it is non-zero,
      with its value; no zero value is sent; `request` names the operation. */
  function SubtractRewardPointsQuery(o: SubtractRewardPointsOpts): (q: Object)
    ensures "request" in q && q["request"] == StrV(SubtractOperation)
    ensures forall f :: f in SubtractRewardPointsFields(o) ==>
              (f.name in q <==> !IsZero(f.value)) && (f.name in q ==> q[f.name] == f.value)
    ensures forall k :: k in q && k != "request" ==> !IsZero(q[k])
    ensures forall k :: k in q && k != "request" ==> exists f :: f in SubtractRewardPointsFields(o) && f.name == k
  {
    QueryExact(SubtractRewardPointsFields(o), SubtractOperation);
    QueryHasNoZeros(SubtractRewardPointsFields(o), SubtractOperation);
    Query(SubtractRewardPointsFields(o), SubtractOperation)
  }

  /** `SubtractRewardPointsOpts.MarshalJSON`: fails only for a NaN or infinite `Points`; otherwise
      the fields of the query string (without `request`) plus `requestName` and `requestID`. */
  function SubtractRewardPointsMarshalJSON(o: SubtractRewardPointsOpts): (r: Result<Object>)
    ensures r.Ok? <==> o.points.Finite?
    ensures r.Err? ==> r.error == UnsupportedValue
    ensures r.Ok? ==> "request" !in r.value
    ensures r.Ok? ==> && "requestName" in r.value && r.value["requestName"] == StrV(SubtractOperation)
                      && "requestID" in r.value && r.value["requestID"] == IntV(o.customerID)
    ensures r.Ok? ==> forall k :: k !in ReservedNames ==>
              (k in r.value <==> k in SubtractRewardPointsQuery(o))
              && (k in r.value ==> r.value[k] == SubtractRewardPointsQuery(o)[k])
  {
    var fs := SubtractRewardPointsFields(o);
    StampedAgreesWithQuery(fs, RequestStamps(SubtractOperation, o.customerID), SubtractOperation);
    MarshalObject(fs + RequestStamps(SubtractOperation, o.customerID))
  }

  /** `SubtractRewardPoints`: an error status wins over any records; otherwise the first record
      unchanged, or "not found". */
  function SubtractRewardPoints(opts: SubtractRewardPointsOpts, call: Object -> Reply<Envelope<SubtractedRewardPoints>>)
    : (r: Result<SubtractedRewardPoints>)
    ensures var reply := call(SubtractRewardPointsQuery(opts));
      && (reply.CallError? ==> r == Err(Transport(reply.cause)))
      && (reply.Response? ==>
            var env := Decoded(reply.successState, reply.body);
            && (IsErrorStatus(env.status) ==> r == Err(ApiError(env.status.errorCode)))
            && (!IsErrorStatus(env.status) && |env.records| > 0 ==> r == Ok(env.records[0]))
            && (!IsErrorStatus(env.status) && env.records == [] ==> r == Err(NoRecordsFound)))
  {
    match call(SubtractRewardPointsQuery(opts))
    case CallError(cause) => Err(Transport(cause))
    case Response(successState, body) => StatusFirst(Decoded(successState, body))
  }

  /** The JSON array `BulkSubtractRewardPoints` sends; it fails exactly when some `Points` is NaN or infinite. */
  function BulkSubtractRewardPointsPayload(opts: seq<SubtractRewardPointsOpts>): (r: Result<seq<Object>>)
    ensures r.Ok? <==> forall i :: 0 <= i < |opts| ==> opts[i].points.Finite?
    ensures r.Err? ==> r.error == UnsupportedValue
    ensures r.Ok? ==> |r.value| == |opts| &&
                      forall i :: 0 <= i < |opts| ==> r.value[i] == SubtractRewardPointsMarshalJSON(opts[i]).value
  {
    MarshalArray(opts, SubtractRewardPointsMarshalJSON)
  }

  /** `BulkSubtractRewardPoints`: all inner records in envelope order, statuses ignored. */
  method BulkSubtractRewardPoints(opts: seq<SubtractRewardPointsOpts>,
                                  call: seq<Object> -> Reply<BulkEnvelope<SubtractedRewardPoints>>)
    returns (r: Result<seq<SubtractedRewardPoints>>)
    ensures var payload := BulkSubtractRewardPointsPayload(opts);
      && (payload.Err? ==> r == Err(UnsupportedValue))
      && (payload.Ok? && call(payload.value).CallError? ==> r == Err(Transport(call(payload.value).cause)))
      && (payload.Ok? && call(payload.value).Response? ==>
            var reply := call(payload.value);
            r == Ok(Concat(DecodedBulk(reply.successState, reply.body).requests)))
  {
    var payload := BulkSubtractRewardPointsPayload(opts);
    if payload.Err? {
      return Err(payload.error);
    }
    var reply := call(payload.value);
    if reply.CallError? {
      return Err(Transport(reply.cause));
    }
    var records := AppendAll(DecodedBulk(reply.successState, reply.body).requests);
    r := Ok(records);
  }

  // ---------------------------------------------------------------------------------------
  // addCustomerRewardPoints

  datatype AddRewardPointsOpts = AddRewardPointsOpts(
    customerID: int, invoiceID: int, points: Float, createdUnixTime: int,
    expiryUnixTime: int, employeeID: int, description: string)

  /** The tagged fields of `AddRewardPointsOpts`; every one is `omitempty`. */
  function AddRewardPointsFields(o: AddRewardPointsOpts): (fs: seq<Field>)
    ensures WellFormed(fs)
    ensures forall f :: f in fs ==> f.omitEmpty
    ensures (forall f :: f in fs ==> Encodable(f)) <==> o.points.Finite?
  {
    var fields :=
    [ Field("customerID", IntV(o.customerID), true),
      Field("invoiceID", IntV(o.invoiceID), true),
      Field("points", FloatV(o.points), true),
      Field("createdUnixTime", IntV(o.createdUnixTime), true),
      Field("expiryUnixTime", IntV(o.expiryUnixTime), true),
      Field("employeeID", IntV(o.employeeID), true),
      Field("description", StrV(o.description), true) ];
    assert Field("points", FloatV(o.points), true) in fields;
    fields
  }

  /** The query string of `AddRewardPoints`. */
  function AddRewardPointsQuery(o: AddRewardPointsOpts): (q: Object)
    ensures "request" in q && q["request"] == StrV(AddOperation)
    ensures forall f :: f in AddRewardPointsFields(o) ==>
              (f.name in q <==> !IsZero(f.value)) && (f.name in q ==> q[f.name] == f.value)
    ensures forall k :: k in q && k != "request" ==> !IsZero(q[k])
    ensures forall k :: k in q && k != "request" ==> exists f :: f in AddRewardPointsFields(o) && f.name == k
  {
    QueryExact(AddRewardPointsFields(o), AddOperation);
    QueryHasNoZeros(AddRewardPointsFields(o), AddOperation);
    Query(AddRewardPointsFields(o), AddOperation)
  }

  /** `AddRewardPointsOpts.MarshalJSON`. */
  function AddRewardPointsMarshalJSON(o: AddRewardPointsOpts): (r: Result<Object>)
    ensures r.Ok? <==> o.points.Finite?
    ensures r.Err? ==> r.error == UnsupportedValue
    ensures r.Ok? ==> "request" !in r.value
    ensures r.Ok? ==> && "requestName" in r.value && r.value["requestName"] == StrV(AddOperation)
                      && "requestID" in r.value && r.value["requestID"] == IntV(o.customerID)
    ensures r.Ok? ==> forall k :: k !in ReservedNames ==>
              (k in r.value <==> k in AddRewardPointsQuery(o))
              && (k in r.value ==> r.value[k] == AddRewardPointsQuery(o)[k])
  {
    var fs := AddRewardPointsFields(o);
    StampedAgreesWithQuery(fs, RequestStamps(AddOperation, o.customerID), AddOperation);
    MarshalObject(fs + RequestStamps(AddOperation, o.customerID))
  }

  /** `AddRewardPoints`: the same order of checks as `SubtractRewardPoints`. */
  function AddRewardPoints(opts: AddRewardPointsOpts, call: Object -> Reply<Envelope<RewardPoints>>): (r: Result<RewardPoints>)
    ensures var reply := call(AddRewardPointsQuery(opts));
      && (reply.CallError? ==> r == Err(Transport(reply.cause)))
      && (reply.Response? ==>
            var env := Decoded(reply.successState, reply.body);
            && (IsErrorStatus(env.status) ==> r == Err(ApiError(env.status.errorCode)))
            && (!IsErrorStatus(env.status) && |env.records| > 0 ==> r == Ok(env.records[0]))
            && (!IsErrorStatus(env.status) && env.records == [] ==> r == Err(NoRecordsFound)))
  {
    match call(AddRewardPointsQuery(opts))
    case CallError(cause) => Err(Transport(cause))
    case Response(successState, body) => StatusFirst(Decoded(successState, body))
  }

  /** The JSON array `BulkAddRewardPoints` sends. */
  function BulkAddRewardPointsPayload(opts: seq<AddRewardPointsOpts>): (r: Result<seq<Object>>)
    ensures r.Ok? <==> forall i :: 0 <= i < |opts| ==> opts[i].points.Finite?
    ensures r.Err? ==> r.error == UnsupportedValue
    ensures r.Ok? ==> |r.value| == |opts| &&
                      forall i :: 0 <= i < |opts| ==> r.value[i] == AddRewardPointsMarshalJSON(opts[i]).value
  {
    MarshalArray(opts, AddRewardPointsMarshalJSON)
  }

  /** `BulkAddRewardPoints`: its loop skips empty inner envelopes, which appends nothing anyway,
      so the result is the plain flattening. */
  method BulkAddRewardPoints(opts: seq<AddRewardPointsOpts>, call: seq<Object> -> Reply<BulkEnvelope<RewardPoints>>)
    returns (r: Result<seq<RewardPoints>>)
    ensures var payload := BulkAddRewardPointsPayload(opts);
      && (payload.Err? ==> r == Err(UnsupportedValue))
      && (payload.Ok? && call(payload.value).CallError? ==> r == Err(Transport(call(payload.value).cause)))
      && (payload.Ok? && call(payload.value).Response? ==>
            var reply := call(payload.value);
            r == Ok(Concat(DecodedBulk(reply.successState, reply.body).requests)))
  {
    var payload := BulkAddRewardPointsPayload(opts);
    if payload.Err? {
      return Err(payload.error);
    }
    var reply := call(payload.value);
    if reply.CallError? {
      return Err(Transport(reply.cause));
    }
    var requests := DecodedBulk(reply.successState, reply.body).requests;
    var out: seq<RewardPoints> := [];
    var i := 0;
    while i < |requests|
      invariant 0 <= i <= |requests|
      invariant out == Concat(requests[..i])
    {
      ConcatStep(requests, i);
      if |requests[i].records| > 0 {
        out := out + requests[i].records;
      } else {
        assert out + requests[i].records == out;
      }
      i := i + 1;
    }
    assert requests[..i] == requests;
    r := Ok(out);
  }
}
