/** The coupon service: `saveIssuedCoupon` as a single call (query-string request, one envelope
    back) and as a bulk call (JSON array of requests, one inner envelope per request back).

    The HTTP call is a parameter: `call` maps the encoded request to the reply the client
    library hands back. */
module Coupon {
  import opened Results
  import opened Encoding
  import opened Legacy

  const SaveOperation := "saveIssuedCoupon"

  /** `SaveIssuedCouponOpts`. Every field is an integer or a string, so nothing in it can make
      the JSON encoder fail. */
  datatype SaveIssuedCouponOpts = SaveIssuedCouponOpts(
    issuedCouponID: int, couponID: int, uniqueIdentifier: string, invoiceID: int,
    customerID: int, warehouseID: int, pointOfSaleID: int, employeeID: int, timestamp: int,
    expiryDate: string, isPrintedAutomatically: int, doNotSubtractRewardPoints: int,
    redeemedInvoiceID: int, redeemedCustomerID: int, redeemedTimestamp: int,
    redeemedWarehouseID: int, redeemedPointOfSaleID: int, redeemedEmployeeID: int)

  /** `IssuedCoupon`. */
  datatype IssuedCoupon = IssuedCoupon(
    issuedCouponID: int, couponID: int, couponCode: string, couponDescription: string,
    couponName: string, uniqueIdentifier: string, printingCostInRewardPoints: int)

  /** The tag names of `SaveIssuedCouponOpts`, in declaration order. */
  const SaveIssuedCouponNames: seq<string> :=
    [ "issuedCouponID", "couponID", "uniqueIdentifier", "invoiceID", "customerID", "warehouseID",
      "pointOfSaleID", "employeeID", "timestamp", "expiryDate", "isPrintedAutomatically",
      "doNotSubtractRewardPoints", "redeemedInvoiceID", "redeemedCustomerID", "redeemedTimestamp",
      "redeemedWarehouseID", "redeemedPointOfSaleID", "redeemedEmployeeID" ]

  lemma SaveIssuedCouponNamesDistinct()
    ensures forall i, j :: 0 <= i < j < |SaveIssuedCouponNames| ==> SaveIssuedCouponNames[i] != SaveIssuedCouponNames[j]
  {
  }

  lemma SaveIssuedCouponNamesUnreserved()
    ensures forall i :: 0 <= i < |SaveIssuedCouponNames| ==> SaveIssuedCouponNames[i] !in ReservedNames
  {
  }

  /** The tagged fields of `SaveIssuedCouponOpts`, in declaration order; every tag says `omitempty`. */
  function SaveIssuedCouponFields(o: SaveIssuedCouponOpts): (fs: seq<Field>)
    ensures |fs| == |SaveIssuedCouponNames|
    ensures forall i :: 0 <= i < |fs| ==> fs[i].name == SaveIssuedCouponNames[i] && fs[i].omitEmpty && !fs[i].value.FloatV?
  {
    [ Field("issuedCouponID", IntV(o.issuedCouponID), true),
      Field("couponID", IntV(o.couponID), true),
      Field("uniqueIdentifier", StrV(o.uniqueIdentifier), true),
      Field("invoiceID", IntV(o.invoiceID), true),
      Field("customerID", IntV(o.customerID), true),
      Field("warehouseID", IntV(o.warehouseID), true),
      Field("pointOfSaleID", IntV(o.pointOfSaleID), true),
      Field("employeeID", IntV(o.employeeID), true),
      Field("timestamp", IntV(o.timestamp), true),
      Field("expiryDate", StrV(o.expiryDate), true),
      Field("isPrintedAutomatically", IntV(o.isPrintedAutomatically), true),
      Field("doNotSubtractRewardPoints", IntV(o.doNotSubtractRewardPoints), true),
      Field("redeemedInvoiceID", IntV(o.redeemedInvoiceID), true),
      Field("redeemedCustomerID", IntV(o.redeemedCustomerID), true),
      Field("redeemedTimestamp", IntV(o.redeemedTimestamp), true),
      Field("redeemedWarehouseID", IntV(o.redeemedWarehouseID), true),
      Field("redeemedPointOfSaleID", IntV(o.redeemedPointOfSaleID), true),
      Field("redeemedEmployeeID", IntV(o.redeemedEmployeeID), true) ]
  }

  /** The options struct has distinct tag names, none of them a key the facade adds. */
  lemma SaveIssuedCouponFieldsWellFormed(o: SaveIssuedCouponOpts)
    ensures WellFormed(SaveIssuedCouponFields(o))
  {
    SaveIssuedCouponNamesDistinct();
    SaveIssuedCouponNamesUnreserved();
  }

  /** The query string of `SaveIssuedCoupon`: each field present exactly when it is non-zero,
      with its value; no zero value is ever sent; `request` names the operation. */
  function SaveIssuedCouponQuery(o: SaveIssuedCouponOpts): (q: Object)
    ensures "request" in q && q["request"] == StrV(SaveOperation)
    ensures forall f :: f in SaveIssuedCouponFields(o) ==>
              (f.name in q <==> !IsZero(f.value)) && (f.name in q ==> q[f.name] == f.value)
    ensures forall k :: k in q && k != "request" ==> !IsZero(q[k])
    ensures forall k :: k in q && k != "request" ==> exists f :: f in SaveIssuedCouponFields(o) && f.name == k
  {
    SaveIssuedCouponFieldsWellFormed(o);
    QueryExact(SaveIssuedCouponFields(o), SaveOperation);
    QueryHasNoZeros(SaveIssuedCouponFields(o), SaveOperation);
    Query(SaveIssuedCouponFields(o), SaveOperation)
  }

  /** The two 0/1 flags of the options can be sent as 1 but never as 0: a flag is in the query
      string exactly when it is non-zero. */
  lemma {:induction false} ZeroFlagsNeverSent(o: SaveIssuedCouponOpts)
    ensures "isPrintedAutomatically" in SaveIssuedCouponQuery(o) <==> o.isPrintedAutomatically != 0
    ensures "doNotSubtractRewardPoints" in SaveIssuedCouponQuery(o) <==> o.doNotSubtractRewardPoints != 0
  {
    var fs := SaveIssuedCouponFields(o);
    assert fs[10] == Field("isPrintedAutomatically", IntV(o.isPrintedAutomatically), true);
    assert fs[11] == Field("doNotSubtractRewardPoints", IntV(o.doNotSubtractRewardPoints), true);
  }

  /** `SaveIssuedCouponOpts.MarshalJSON`: never fails; the fields of the query string (without
      `request`) plus `requestName`, and -- unlike the customer operations -- no `requestID`. */
  function SaveIssuedCouponMarshalJSON(o: SaveIssuedCouponOpts): (r: Result<Object>)
    ensures r.Ok?
    ensures "requestName" in r.value && r.value["requestName"] == StrV(SaveOperation)
    ensures "requestID" !in r.value && "request" !in r.value
    ensures forall k :: k !in ReservedNames ==>
              (k in r.value <==> k in SaveIssuedCouponQuery(o))
              && (k in r.value ==> r.value[k] == SaveIssuedCouponQuery(o)[k])
  {
    var fs := SaveIssuedCouponFields(o);
    SaveIssuedCouponFieldsWellFormed(o);
    NoFloatsEncodable(fs);
    NameStampedAgreesWithQuery(fs, SaveOperation);
    MarshalObject(fs + [Field("requestName", StrV(SaveOperation), false)])
  }

  /** `SaveIssuedCoupon`: records are checked first, so an "error" status that still carries
      records returns the first record; without records an "error" status gives the API error
      with its code, any other status "not found". */
  function SaveIssuedCoupon(opts: SaveIssuedCouponOpts, call: Object -> Reply<Envelope<IssuedCoupon>>)
    : (r: Result<IssuedCoupon>)
    ensures var reply := call(SaveIssuedCouponQuery(opts));
      && (reply.CallError? ==> r == Err(Transport(reply.cause)))
      && (reply.Response? ==>
            var env := Decoded(reply.successState, reply.body);
            && (|env.records| > 0 ==> r == Ok(env.records[0]))
            && (env.records == [] && IsErrorStatus(env.status) ==> r == Err(ApiError(env.status.errorCode)))
            && (env.records == [] && !IsErrorStatus(env.status) ==> r == Err(NoRecordsFound)))
  {
    match call(SaveIssuedCouponQuery(opts))
    case CallError(cause) => Err(Transport(cause))
    case Response(successState, body) => RecordsFirst(Decoded(successState, body))
  }

  /** The JSON array `BulkSaveIssuedCoupon` sends; encoding it cannot fail. */
  function BulkSaveIssuedCouponPayload(opts: seq<SaveIssuedCouponOpts>): (r: Result<seq<Object>>)
    ensures r.Ok? && |r.value| == |opts|
    ensures forall i :: 0 <= i < |opts| ==> r.value[i] == SaveIssuedCouponMarshalJSON(opts[i]).value
  {
    MarshalArray(opts, SaveIssuedCouponMarshalJSON)
  }

  /** `BulkSaveIssuedCoupon`: all inner records in envelope order, nothing restamped, statuses ignored. */
  method BulkSaveIssuedCoupon(opts: seq<SaveIssuedCouponOpts>, call: seq<Object> -> Reply<BulkEnvelope<IssuedCoupon>>)
    returns (r: Result<seq<IssuedCoupon>>)
    ensures var reply := call(BulkSaveIssuedCouponPayload(opts).value);
      && (reply.CallError? ==> r == Err(Transport(reply.cause)))
      && (reply.Response? ==> r == Ok(Concat(DecodedBulk(reply.successState, reply.body).requests)))
  {
    // Marshalling these options cannot fail, so the source's early return on a marshal error is never taken.
    var payload := BulkSaveIssuedCouponPayload(opts);
    var reply := call(payload.value);
    if reply.CallError? {
      return Err(Transport(reply.cause));
    }
    var records := AppendAll(DecodedBulk(reply.successState, reply.body).requests);
    r := Ok(records);
  }
}
