# caprice: the JSON-RPC request/response layer, in Dafny

caprice is a Go client for the RANDOM.org JSON-RPC API. This project models
its core. That core has four parts:

- The request envelope (`RequestShell`).
- The way `_request` resolves what the HTTP round trip gave back. The result
  is a response shell plus an `Error` record.
- The dispatch in `Request` and `SignedRequest`. Depending on the method name
  it yields a `Status`, a `Result`, a `SignedResult` or a `VerifiedSignature`.
- The façade methods of the client handle:
  - the `*Raw` methods;
  - the typed generators, which narrow the generic `[]interface{}` data array;
  - `GetUsage`;
  - the signed generators. These keep the service's `random` object as raw
    bytes and decode it a second time.
  - `VerifySignature`. It decodes the raw bytes into a `map[string]interface{}`
    and encodes them again before sending.

How the model is set up:

- **JSON documents.** Each is a tree (`Json.Json`). An object is a sequence of
  members in wire order, so duplicates and key order stay visible. The bytes
  the decoder sees are `Json.Text`: either a document or `NotJson`. `NotJson`
  stands for nil, empty and malformed bytes alike.
- **Decoding into a Go struct.** This is a left fold over the object's members
  (`Json.Fold`):
  - a member whose key names a scalar, slice or raw field sets that field
    when its value is accepted, so the last accepted duplicate wins;
  - a member whose key names a struct field (`error` in the response shell,
    `random` in a Result) is decoded into the struct as it stands, so
    duplicates merge field by field (`Scenarios.DuplicateErrorsMerge`);
  - null clears a `[]interface{}` field, is kept as the bytes `null` by a
    `json.RawMessage` field, and is ignored by every other field;
  - a value of the wrong JSON type leaves the field as it was;
  - a member whose key names no field is skipped.
- **Go `int` fields.** They accept only integral numbers within 64 bits.
- **`interface{}` values.** These are `Generic.Any`. A `map[string]interface{}`
  is an association list with unique keys in ascending order, because that is
  the order in which `json.Marshal` writes map keys.
- **The HTTP round trip.** It is a parameter, `Core.Transport`: a function from
  the request body to an `Exchange`. An `Exchange` is a failed post, a failed
  body read, or a status code with a body.
- **Failed type assertions.** A single-value type assertion that fails panics
  in Go. That is the `Panicked` outcome of `Core.Outcome`.
- **Floating point.** Parameters are `Wire.Float64`, which includes NaN and the
  infinities. This makes the marshal failure, and the synthetic 409 error that
  follows it, reachable.

Modules, in dependency order:

| module | file | holds |
|---|---|---|
| `Wrappers` | wrappers.dfy | `Option` |
| `Json` | json.dfy | documents and the member fold |
| `Generic` | generic.dfy | `interface{}` values and sorted maps |
| `Wire` | wire.dfy | the records, their encoders and decoders |
| `Core` | core.dfy | `_request`, `Request`, `SignedRequest`, `Content()` |
| `Basic` | basic.dfy | the client, the `*Raw` methods, the typed generators, `GetUsage` |
| `Signed` | signed.dfy | the signed generators and `VerifySignature` |
| `Scenarios` | scenarios.dfy | concrete exchanges, stated as facts about the façade |

### Behaviour worth knowing

The model follows the code in each of these cases.

- **A non-200 answer whose body does not decode to an error record with a
  message counts as success.** Examples are a 503 whose body is not JSON, or
  one whose body is `{}`. `_request` returns an error whose message is empty,
  and every caller tests only the message. So the façade returns empty data and
  no error (`Core.UnreadableErrorBodyIsSuccess`,
  `Scenarios.UnreadableUnavailable`). It does not return a client error.
- **Signed shapes are chosen by calling `SignedRequest` rather than `Request`,
  not by a "signed" prefix in the method name.** Within `SignedRequest`,
  exactly "verifySignature" gives a `VerifiedSignature` (core.go:284), and
  every other name gives a `SignedResult`. Within `Request`, exactly
  "getUsage" gives a `Status` (core.go:266), and every other name gives a
  `Result`.
- **No parameter is validated on this side.** The only failure raised before
  anything is sent is a marshal failure, which happens only for a non-finite
  Gaussian argument (`Wire.MarshalFailsOnlyOnNonFinite`). A failed post or a
  failed body read (core.go:229-239) is the other local failure; it gets the
  same synthetic 409 error (`Core.Resolve`).
- **A data element of the wrong type panics.** The façade does not return an
  error in that case.
- **The envelope's members are written in the order `jsonrpc`, `params`,
  `method`, `id`.** This is the field order of `RequestShell`.
- **The tag of `VerifiedSignature.Authenticity` reads `authenticiity`.** A
  reply that spells the key `authenticity` therefore decodes to false
  (`Wire.AuthenticitySpelledOtherwise`). This agrees with the source's own
  remark that verification "consistently claims authenticity is false".
- **`VerifySignature` does not always send the signed object back as it
  arrived.** It sends the raw object re-encoded through a map. As a document
  tree, that reproduces the original exactly when the document's keys are
  already unique and sorted at every level (`Signed.ResentPayload`,
  `Generic.ReEncodeIdentity`). An object whose keys arrive in another order is
  sent back reordered (`Scenarios.ResentObjectIsSorted`). Even a tree-identical
  re-send may differ in its bytes. Whitespace, number text and escaping are not
  modelled (see the JSON text line under "Left out").

## Model

| member | source | states |
|---|---|---|
| `Generic.ToAny` | core.go:93 | Decoding into `interface{}`: arrays become lists of the same length, objects become maps with exactly the object's keys, well-formed at every level |
| `Generic.FromAny` | core.go:202 | Encoding an `interface{}` value always gives a document whose object keys are unique and ascending at every level |
| `Generic.InsertAllLastWins` | signed_methods.go:197-198 | Inserting a sequence of entries into a map, as map decoding does, leaves each key that occurs with the value of its last occurrence, and every other key with what the map held before |
| `Generic.ToAnyLastWins` | signed_methods.go:197-198 | Looking a key up in the map an object decodes to gives the value (as `interface{}`) of that key's last member in the object; the lookup succeeds exactly for the keys the object has |
| `Generic.DecodeEncode` | signed_methods.go:194-200 | Encoding a well-formed map and decoding it again gives the same map |
| `Generic.EncodeDecode` | signed_methods.go:194-200 | A document with unique, sorted keys survives decoding into a map and re-encoding unchanged |
| `Generic.ReEncodeIdentity` | signed_methods.go:194-200 | Decoding into a map and re-encoding is the identity exactly on documents with unique, sorted keys |
| `Wire.MarshalFailsOnlyOnNonFinite` | core.go:169-175 | Marshalling a parameter record fails iff it is a Gaussian request with a NaN or infinite mean or deviation; the message names the mean first |
| `Wire.EnvelopeRoundTrip` | core.go:28-33 | Decoding an encoded envelope through the `RequestShell` tags gives version "2.0", id 1, the method name and the marshalled parameters unchanged |
| `Wire.SignedRawVerbatim` | core.go:80-87 | A signed result's `Raw` is the value of the last `random` member, verbatim; with no such member it stays nil |
| `Wire.AuthenticityFromExactKey` | core.go:73-75 | The authenticity flag is the last boolean under the exact key `authenticiity`, false when there is none |
| `Wire.AuthenticitySpelledOtherwise` | core.go:74 | A reply carrying `"authenticity": true` decodes to false |
| `Wire.RandomDataFromLastArray` | core.go:92-97 | The data of a Random is the last array (or null) under `data`, each element converted to `interface{}` in order; a `data` member of another type is ignored, and without an array the data is empty |
| `Wire.NoRandomNoData` | core.go:50-56 | A result without a `random` member carries the zero `Random`, so no data |
| `Core.Resolve` | core.go:228-257 | Post or read failure gives the zero shell and a 409 error with the failure's text; non-200 gives the zero shell and the body decoded as an error; a 200 gives the shell and no error iff the decoded error message is empty, otherwise the zero shell and that error |
| `Core.Dispatch` | core.go:218-226 | A parameter record that fails to marshal gives a 409 error with the marshal message, and the transport is not consulted; otherwise the answer to the encoded envelope is resolved; a real error always comes with the zero shell |
| `Core.Request` | core.go:259-275 | An error passes through with no response; otherwise the response is a Status iff the name is "getUsage" and a Result iff it is not, each decoded from the shell's result |
| `Core.SignedRequest` | core.go:277-293 | An error passes through with no response; otherwise the response is a VerifiedSignature iff the name is "verifySignature" and a SignedResult iff it is not |
| `Core.ContentOf` | core.go:130-144 | Asserting `Content()` to `[]interface{}` succeeds only for a Result and yields its data; asserting it to Status, SignedResult or VerifiedSignature succeeds only for that variant and recovers it unchanged |
| `Core.UnreadableErrorBodyIsSuccess` | core.go:241-256 | An answer whose body is not JSON, whatever its status, ends as success, with the zero Result for a generator |
| `Basic.Trunc` | basic_methods.go:18 | `int(float64)` drops the fraction toward zero, for negative numbers too |
| `Basic.Narrow` | basic_methods.go:16-19 | The typed slice exists iff every element has the asserted type; it then has the same length, and element i is the cast of wire element i |
| `Basic.RawCall` | raw_basic_methods.go:8-13 | A `*Raw` body returns the zero Result and the error, or the decoded Result and no error; an unmarshallable record gives the 409 error |
| `Basic.GenerateIntegersRaw` | raw_basic_methods.go:6-14 | Sends `apiKey, n, min, max` and `replacement` only when true, under "generateIntegers", and returns what the answer resolves to |
| `Basic.GenerateDecimalFractionsRaw` | raw_basic_methods.go:18-26 | Sends `apiKey, n, decimalPlaces` and `replacement` only when true, under "generateDecimalFractions" |
| `Basic.GenerateGaussiansRaw` | raw_basic_methods.go:30-39 | Sends `apiKey, n, mean, standardDeviation, significantDigits` under "generateGaussians" when both arguments are finite; otherwise returns the 409 "json: unsupported value" error without sending |
| `Basic.GenerateStringsRaw` | raw_basic_methods.go:43-52 | Sends `apiKey, n, length, characters` and `replacement` only when true, under "generateStrings" |
| `Basic.GenerateUUIDsRaw` | raw_basic_methods.go:56-64 | Sends `apiKey, n` under "generateUUIDs" |
| `Basic.GenerateBlobsRaw` | raw_basic_methods.go:68-76 | Sends `apiKey, n, size, format` under "generateBlobs" |
| `Basic.Typed` | basic_methods.go:8-21 | An error gives the empty slice and that error; otherwise one element per wire element, each the cast of the element at the same position, and a panic exactly when some element has the wrong type |
| `Basic.GenerateIntegers` | basic_methods.go:6-22 | The integers raw call narrowed element by element through `int(float64)` |
| `Basic.GenerateDecimalFractions` | basic_methods.go:26-42 | The decimal-fractions raw call narrowed through `float64` |
| `Basic.GenerateGaussians` | basic_methods.go:46-62 | The Gaussians raw call narrowed through `float64` |
| `Basic.GenerateStrings` | basic_methods.go:66-82 | The strings raw call narrowed through `string` |
| `Basic.GenerateUUIDs` | basic_methods.go:85-101 | The UUIDs raw call narrowed through `string` |
| `Basic.GenerateBlobs` | basic_methods.go:104-120 | The blobs raw call narrowed through `string` |
| `Basic.GetUsage` | basic_methods.go:123-130 | Sends `{apiKey}` under "getUsage"; returns the zero Status and the error, or the decoded Status and no error; never panics |
| `Signed.Assemble` | signed_methods.go:17-33 | A panic exactly when some element of the data decoded from the raw bytes has the wrong type; otherwise the raw bytes and signature are copied unchanged, the hashed key and serial number are those of the re-decoded raw bytes, and the data has their length, element i being the cast of their element i |
| `Signed.SignedCall` | signed_methods.go:10-33 | A signed generator returns the zero record and the error, or the assembled record; an unmarshallable record gives the 409 error |
| `Signed.GenerateSignedIntegers` | signed_methods.go:8-34 | Sends the integers record under "generateSignedIntegers"; data narrowed through `int(float64)` |
| `Signed.GenerateSignedDecimalFractions` | signed_methods.go:38-65 | Sends the decimal-fractions record under "generateSignedDecimalFractions"; data narrowed through `float64` |
| `Signed.GenerateSignedGaussians` | signed_methods.go:70-97 | Sends the Gaussians record under "generateSignedGaussians" when both arguments are finite, otherwise the 409 error without sending |
| `Signed.GenerateSignedStrings` | signed_methods.go:100-127 | Sends the strings record under "generateSignedStrings"; data narrowed through `string` |
| `Signed.GenerateSignedUUIDs` | signed_methods.go:130-156 | Sends `apiKey, n` under "generateSignedUUIDs"; data narrowed through `string` |
| `Signed.GenerateSignedBlobs` | signed_methods.go:159-185 | Sends the blobs record under "generateSignedBlobs"; data narrowed through `string` |
| `Signed.ResentPayload` | signed_methods.go:197-200 | The re-sent `random` is null unless the raw bytes hold an object; its keys are sorted; it equals the original document iff that is null or an object with unique, sorted keys |
| `Signed.ResentPayloadSameMap` | signed_methods.go:194-200 | Decoding the re-sent `random` into a map gives the map the raw bytes decoded to |
| `Signed.VerifySignature` | signed_methods.go:192-209 | Sends the re-sent `random` and the signature under "verifySignature"; returns false and the error, or the decoded flag and no error; never panics |
| `Scenarios.IntegersArrive` | basic_methods.go:14-21 | A 200 answer with data `[1, 5, 3]` yields exactly the ints 1, 5, 3 and no error |
| `Scenarios.WrongElementTypePanics` | basic_methods.go:17-19 | A string in the data where a number belongs makes the integer loop panic |
| `Scenarios.NonArrayDataIsEmpty` | basic_methods.go:74-81 | A `data` member holding a string, not an array, yields an empty slice and no error |
| `Scenarios.ServiceErrorPassesThrough` | core.go:252-254 | A 200 answer carrying `{code: 400, message: "Invalid API key"}` yields the empty slice and that error |
| `Scenarios.DuplicateErrorsMerge` | core.go:40-45 | Two `error` members in a 200 answer merge field by field: the later code with the earlier message is what the caller gets |
| `Scenarios.UnreadableUnavailable` | core.go:242-246 | A 503 answer with a non-JSON body yields the empty slice and no error |
| `Scenarios.PostFailureIsClientError` | core.go:229-232 | A failed post yields the empty slice and a 409 error carrying the failure's text |
| `Scenarios.SignedStringsArrive` | signed_methods.go:100-127 | A signed answer yields its random object as raw bytes, the decoded data and serial number, and the signature |
| `Scenarios.ResentObjectIsSorted` | signed_methods.go:197-200 | An object received as `{"n":1,"data":null}` is re-sent as `{"data":null,"n":1}` |

## Left out

- The HTTP round trip itself is a parameter (`Core.Transport`). So are the endpoint URL, the content type, and closing the response body.
- The `fmt.Println` of the request body in `_request` is output only and has no model.
- JSON text is not modelled, so the byte form of what is sent or kept raw is not either. Bytes are abstracted to a document tree or `NotJson`. Whitespace, escaping, the textual form of numbers (`5` against `5.0`) and invalid UTF-8 are not represented.
- Go's `encoding/json` also matches struct keys case-insensitively. Here only the exact tag name fills a field.
- Numbers are exact reals. float64 rounding when the service's digits are decoded is not modelled.
- `Basic.Trunc`: a float64 outside the int64 range converts to an implementation-specific value in Go. The model truncates exactly instead.
- Go `int` parameters are 64 bits wide. The model's parameters are unbounded integers, which matters only for values Go could not hold anyway.
- `Error.Error()` (the `fmt.Sprintf` formatting, core.go:206-208) is left out because it only formats text.
- A panic is modelled as the `Panicked` outcome, without its runtime message.
- What the service guarantees is not modelled: values within `[min, max]`, `n` elements, the validity of signatures. The model says only what the client does with whatever comes back.
- The test file api_test.go is not part of this model. It exercises the live service.
