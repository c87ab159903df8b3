# go-erply legacy client: request and response translation

This project models the service facade of the `legacy` package of go-erply, a Go client for
the Erply retail API. The facade has three parts.

- Options encoding. Each options struct becomes request parameters. On the single-call path it
  becomes a query string with a fixed `request=<operation>` entry. On the bulk path each element
  of a JSON array gets a `requestName` stamp and, for the customer operations, a `requestID`
  equal to the customer id. Zero-valued `omitempty` fields are left out on both paths.
- Single-call result selection. Each endpoint picks the first record, `API Error: <code>` or
  `No Records Found`, and each endpoint checks these in its own order.
- Bulk result flattening. The inner record lists of a bulk response are joined in order.
  `BulkGetRewardPoints` also overwrites the customer id of each inner envelope's first record
  with that envelope's echoed `requestID`.

The model also covers the two decisions in `legacy.go`. The first is the configuration loader,
with the environment passed in as a map. The second is the session bootstrap in `NewClient`:
which default parameters, header and base URL it installs, and its error, `(nil, nil)` and
panic outcomes.

The HTTP exchange is replaced by an input of type `Legacy.Reply`. A reply is either a call error,
covering transport and decoding failures, or a response. A response carries the client library's
success-state verdict and the decoded body. The library decodes the body into the success
result only in a success state; otherwise the caller sees the zero envelope (`Legacy.Decoded`).
Encodings are key/value maps (`Encoding.Object`), not bytes.

Files:

- `results.dfy` holds the error values and the `(value, error)` result type.
- `encoding.dfy` models the omitempty walk shared by the query-string and JSON encoders.
- `legacy.dfy` holds the envelopes, the three selection rules, flattening, the configuration
  loader, the `Client` defaults and `NewClient`.
- `customer.dfy` holds the get, subtract and add reward-point operations.
- `coupon.dfy` holds `saveIssuedCoupon`.

Behaviour of the code that the model keeps as written:

- The single-call methods check in different orders. `SaveIssuedCoupon` checks records first,
  then the error status. `SubtractRewardPoints` and `AddRewardPoints` check the error status
  first. `GetRewardPoints` never reads the status.
- `NewClient` indexes `Records[0]` without a length check (legacy/legacy.go:90). With a success
  state and no records it panics, and the model returns `IndexPanic` for that case.
- `RewardPoints.CustomerID` has no JSON tag. Go's JSON decoder still fills it from a key that
  matches `CustomerID` case-insensitively, such as `customerID`. So records after the first in a
  bulk "get" keep whatever id was decoded; the model does not assume that id is 0.

## Model

| member | source | states |
|---|---|---|
| Encoding.EncodeSound | legacy/customer.go:89-99 | every emitted field's tag name is a key, and every key comes from an emitted field, holding that field's value |
| Encoding.IsZero | legacy/customer.go:89-98 | a value counts as empty for `omitempty` exactly when it is 0, the empty string or the float 0 |
| Encoding.Emitted | legacy/coupon.go:13-30 | a field without `omitempty` is always written; one with it is written iff its value is not empty |
| Encoding.Encode | legacy/customer.go:116 | the encoding has at most one key per field |
| Encoding.EncodeExact | legacy/coupon.go:12-31 | with distinct tag names, a field is present iff it is not an omitempty zero, and then with its own value; no other keys |
| Encoding.Query | legacy/customer.go:37-38 | the query string always carries `request=<operation>` |
| Encoding.QueryExact | legacy/customer.go:116-117 | for a well-formed struct the query holds exactly the emitted fields, with their values, plus `request` |
| Encoding.QueryHasNoZeros | legacy/customer.go:160-168 | when every tag is omitempty, no key other than `request` carries a zero value |
| Encoding.MarshalObject | legacy/customer.go:111 | the JSON encoding fails iff some field is NaN or infinite, with an unsupported-value error; otherwise it has the same pairs as the query encoding |
| Encoding.StampedAgreesWithQuery | legacy/customer.go:101-112 | the bulk object equals the query string away from the reserved keys; each stamp is present with its value; `request` is absent; a reserved key appears only if it was stamped |
| Encoding.NameStampedAgreesWithQuery | legacy/coupon.go:33-43 | with only a `requestName` stamp the object always encodes (when its fields do), carries `requestName`, has neither `requestID` nor `request`, and equals the query string away from the reserved keys |
| Encoding.MarshalArray | legacy/customer.go:139-142 | the array encodes iff every element encodes, element i is the encoding of item i, and a failure carries the first failing element's error |
| Legacy.Decoded | legacy/customer.go:36-42 | the success result is the body in a success state and the zero envelope otherwise |
| Legacy.DecodedBulk | legacy/customer.go:57-66 | the same for a bulk envelope |
| Legacy.RecordsFirst | legacy/coupon.go:67-75 | succeeds iff there are records, then with the first; gives the API error iff there are no records and the status is an error |
| Legacy.StatusFirst | legacy/customer.go:126-134 | succeeds iff the status is not an error and there are records, then with the first; gives the API error iff the status is an error |
| Legacy.RecordsOnly | legacy/customer.go:48-53 | succeeds iff there are records, then with the first; otherwise "not found" |
| Legacy.Concat | legacy/coupon.go:94-96 | every record of the flattening comes from one of the inner envelopes |
| Legacy.RulesAgreeWithoutErrorStatus | legacy/coupon.go:67-75 | on a non-error status all three selection rules give the first record, or all give "not found" |
| Legacy.StatusFirstDiffersFromRecordsFirst | legacy/customer.go:126-134 | the status-first rule differs from the records-first rule iff an error status comes with records; on an error status it always gives the API error with its code |
| Legacy.RecordsOnlyDiffersFromRecordsFirst | legacy/customer.go:48-53 | the records-only rule differs from the records-first rule iff an error status comes without records; it never gives an API error |
| Legacy.RecordsOnlyIgnoresStatus | legacy/customer.go:48-53 | the records-only rule does not depend on the status |
| Legacy.ConcatLength | legacy/customer.go:152-155 | the flattened length is the sum of the inner record counts |
| Legacy.ConcatAppend | legacy/coupon.go:93-96 | flattening distributes over appending batches of envelopes |
| Legacy.ConcatAt | legacy/coupon.go:93-96 | record j of inner envelope i lands at position (records before envelope i) + j |
| Legacy.ConcatIgnoresStatus | legacy/customer.go:152-155 | inner statuses never change the flattening |
| Legacy.ConcatOfEmpty | legacy/customer.go:221-226 | an all-empty batch flattens to the empty sequence |
| Legacy.AppendAll | legacy/customer.go:152-155 | the append loop produces exactly the in-order concatenation of the inner records |
| Legacy.NewClientConfigFromEnv | legacy/legacy.go:33-61 | the config exists iff all four variables are present (empty values count), and then it holds their values; otherwise the error names the first missing variable in the order USERNAME, PASSWORD, ENDPOINT, CLIENTCODE |
| Legacy.ConfigDependsOnlyOnRequired | legacy/legacy.go:34-52 | two environments that agree on the four variables give the same result |
| Legacy.BaseURL | legacy/legacy.go:84 | the URL is `https://`, then the endpoint, then `/api` |
| Legacy.BaseURLInjective | legacy/legacy.go:95 | different endpoints give different base URLs |
| Legacy.VerifyUserRequest | legacy/legacy.go:75-84 | the verify call goes to the base URL with exactly `request=verifyUser`, `clientCode`, `username` and `password` from the config |
| Legacy.Client.constructor | legacy/legacy.go:64-70 | a fresh client has no default parameters, no default headers and no base URL |
| Legacy.Client.SetCommonQueryParam | legacy/legacy.go:92-93 | installs one default query parameter and changes nothing else |
| Legacy.Client.SetCommonHeaderNonCanonical | legacy/legacy.go:94 | installs one default header under the exact spelling and changes nothing else |
| Legacy.Client.SetBaseURL | legacy/legacy.go:95 | sets the base URL and changes nothing else |
| Legacy.NewClient | legacy/legacy.go:63-99 | a call error gives that error; no success state gives no client and no error; a success state without records panics; otherwise a fresh client with exactly `sessionKey` (from the first record) and `clientCode` as default parameters, `accept: application/json` and the base URL |
| Customer.GetRewardPointFields | legacy/customer.go:18-20 | the single tag is well formed |
| Customer.GetRewardPointsQuery | legacy/customer.go:37-38 | the query holds exactly `customerID` and `request`; `customerID` is sent even when 0 |
| Customer.GetRewardPointsMarshalJSON | legacy/customer.go:22-33 | never fails; exactly `customerID`, `requestName=getCustomerRewardPoints` and `requestID` equal to the customer id |
| Customer.GetRewardPoints | legacy/customer.go:35-54 | a call error is returned as is; with records the result is the first record with its customer id set to the requested one; without records it is "not found", whatever the status |
| Customer.BulkGetRewardPointsPayload | legacy/customer.go:58-61 | the payload always encodes, one object per option, in order |
| Customer.Restamp | legacy/customer.go:73-74 | only the first record of an envelope takes the echoed `requestID`; the others and the status are kept |
| Customer.RestampAll | legacy/customer.go:72-77 | restamps every inner envelope, position by position |
| Customer.RestampKeepsTotals | legacy/customer.go:72-77 | restamping keeps every record count |
| Customer.BulkGetRewardPointsLayout | legacy/customer.go:72-77 | record j of envelope i lands at (records before i) + j; at j = 0 it carries the echoed `requestID`; later ones are unchanged |
| Customer.BulkGetRewardPointsLength | legacy/customer.go:71-79 | the output holds as many records as the inner envelopes together |
| Customer.BulkGetRewardPoints | legacy/customer.go:56-80 | a call error is returned as is; otherwise the restamped inner records, in order, with the inner response statuses (ok/error) ignored |
| Customer.SubtractRewardPointsFields | legacy/customer.go:89-99 | the tags are well formed and all omitempty, and the fields encode iff `Points` is finite |
| Customer.SubtractRewardPointsQuery | legacy/customer.go:116-117 | `request` names the operation; each field is present iff non-zero, with its value; no zero is sent; every other key is a field's tag name |
| Customer.SubtractRewardPointsMarshalJSON | legacy/customer.go:101-112 | fails iff `Points` is NaN or infinite; otherwise the query's fields plus `requestName` and `requestID` equal to the customer id, and no `request` |
| Customer.SubtractRewardPoints | legacy/customer.go:114-135 | an error status gives the API error even with records; otherwise the first record unchanged, or "not found" |
| Customer.BulkSubtractRewardPointsPayload | legacy/customer.go:139-142 | the payload encodes iff every `Points` is finite, one object per option, in order |
| Customer.BulkSubtractRewardPoints | legacy/customer.go:137-158 | a marshal error or call error is returned with no records; otherwise exactly the in-order concatenation of the inner records |
| Customer.AddRewardPointsFields | legacy/customer.go:160-168 | the tags are well formed and all omitempty, and the fields encode iff `Points` is finite |
| Customer.AddRewardPointsQuery | legacy/customer.go:185-186 | `request` names the operation; each field is present iff non-zero, with its value; no zero is sent; every other key is a field's tag name |
| Customer.AddRewardPointsMarshalJSON | legacy/customer.go:170-181 | fails iff `Points` is NaN or infinite; otherwise the query's fields plus `requestName` and `requestID` equal to the customer id, and no `request` |
| Customer.AddRewardPoints | legacy/customer.go:183-204 | an error status gives the API error even with records; otherwise the first record unchanged, or "not found" |
| Customer.BulkAddRewardPointsPayload | legacy/customer.go:208-211 | the payload encodes iff every `Points` is finite, one object per option, in order |
| Customer.BulkAddRewardPoints | legacy/customer.go:206-229 | a marshal error or call error is returned with no records; otherwise exactly the in-order concatenation of the inner records |
| Coupon.SaveIssuedCouponFields | legacy/coupon.go:12-31 | the eighteen tags, in declaration order, all omitempty, none able to fail the JSON encoder |
| Coupon.SaveIssuedCouponFieldsWellFormed | legacy/coupon.go:12-31 | the tag names are distinct and none is a key the facade adds |
| Coupon.SaveIssuedCouponQuery | legacy/coupon.go:57-58 | `request=saveIssuedCoupon`; each field is present iff non-zero, with its value; no zero is sent; every other key is a field's tag name |
| Coupon.ZeroFlagsNeverSent | legacy/coupon.go:23-24 | `isPrintedAutomatically` and `doNotSubtractRewardPoints` are sent iff non-zero, so the value 0 can never be sent |
| Coupon.SaveIssuedCouponMarshalJSON | legacy/coupon.go:33-43 | never fails; the query's fields plus `requestName=saveIssuedCoupon`, with neither `requestID` nor `request` |
| Coupon.SaveIssuedCoupon | legacy/coupon.go:55-76 | with records the first record, even under an error status; without records, an error status gives the API error with its code and any other status "not found" |
| Coupon.BulkSaveIssuedCouponPayload | legacy/coupon.go:80-83 | the payload always encodes, one object per option, in order |
| Coupon.BulkSaveIssuedCoupon | legacy/coupon.go:78-99 | a call error is returned with no records; otherwise exactly the in-order concatenation of the inner records, nothing restamped |

## Left out

- The HTTP transport is not modelled: the `req` client, `Post`, URL resolution, success-state detection and response decoding. Each call's outcome is an input (`Reply`).
- The byte-level work of `go-querystring` and `encoding/json` is not modelled: text formatting of numbers, URL escaping, key order and the JSON text. Encodings are key/value maps.
- `withThrottler` and `withMaxConcurrent` (legacy/legacy.go:103-125) are not modelled. The rate limiter and the concurrency gate only bound concurrent callers, and that is timing and concurrency behaviour.
- `os.LookupEnv` is not modelled; the environment is a map parameter.
- `float64` fields are modelled only as a finite real or a non-finite value. No arithmetic is done on them. The distinction is what decides omitempty (zero) and the JSON encoder's failure (NaN and infinities).
- Error texts are not modelled beyond their kind: the missing variable's name, the API error code, the transport cause, "not found" and an unsupported value.
- The `Customer`/`Coupon` back-references of `Client`, the default settings of `req.C()`, and the `rateLimiter`/`gate` fields are not modelled.
- The JSON encoding of an empty options slice is not modelled. Go encodes a nil slice as `null`; the model sends an empty array. Nothing in the facade depends on the difference.
- `DataResponse` (legacy/legacy.go:144-147) and `Params` (legacy/legacy.go:142) are not used by the modelled code, so they are not part of this model.
- GetRewardPoints, SubtractRewardPoints, AddRewardPoints, SaveIssuedCoupon and NewClient take pointer arguments in Go; the model takes their values, so a nil argument is not represented. In Go a nil options pointer encodes no fields (so `GetRewardPoints(nil)` sends no `customerID`) and then panics at legacy/customer.go:49 when records come back; `NewClient(nil)` panics at legacy/legacy.go:79. Neither panic is modelled.
