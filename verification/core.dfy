/**
  The request/response cycle of core.go: the request envelope is handed to
  the transport, the transport's answer is resolved into a response shell
  and an error record, and the inner result is decoded into one of four
  shapes chosen by the method name.
 */
module Core {
  import opened Wrappers
  import opened Json
  import opened Generic
  import opened Wire

  /**
    What the HTTP round trip yields for one request body: `http.Post`
    failed, reading the response body failed (both with the Go error's text),
    or a status code and the body bytes.
   */
  datatype Exchange =
    | PostFailed(reason: string)
    | ReadFailed(reason: string)
    | Answered(status: int, body: Text)

  /** The HTTP POST to the service endpoint, as a function of the request body. */
  type Transport = Json -> Exchange

  /** A transport that gives the same answer to every request. */
  function Replay(x: Exchange): Transport {
    _ => x
  }

  const ClientErrorCode := 409
  const StatusOK := 200

  /** The synthetic error for a failure on this side of the wire. */
  function ClientError(message: string): (Shell, Error) {
    (ZeroShell, Error(ClientErrorCode, message, []))
  }

  /** A response shell is zero whenever the error beside it is a real one. */
  ghost predicate SentinelHolds(r: (Shell, Error)) {
    r.1.message != "" ==> r.0 == ZeroShell
  }

  /** How `_request` turns the transport's answer into a shell and an error. */
  function Resolve(x: Exchange): (r: (Shell, Error))
    ensures SentinelHolds(r)
    ensures !x.Answered? ==> r.0 == ZeroShell && r.1.code == ClientErrorCode && r.1.message == x.reason
    ensures x.Answered? && x.status != StatusOK ==> r.0 == ZeroShell && r.1 == UnmarshalError(x.body)
    ensures x.Answered? && x.status == StatusOK ==>
              (r.1.message == "" <==> UnmarshalShell(x.body).error.message == "")
    ensures x.Answered? && x.status == StatusOK && r.1.message != "" ==> r.1 == UnmarshalShell(x.body).error
    ensures x.Answered? && x.status == StatusOK && r.1.message == "" ==>
              r == (UnmarshalShell(x.body), NoError)
  {
    match x
    case PostFailed(reason) => ClientError(reason)
    case ReadFailed(reason) => ClientError(reason)
    case Answered(status, body) =>
      if status != StatusOK then (ZeroShell, UnmarshalError(body))
      else
        var response := UnmarshalShell(body);
        if response.error.message != "" then (ZeroShell, response.error)
        else (response, NoError)
  }

  /**
    `_request`: marshal the envelope, post it, resolve the answer. A marshal
    failure never reaches the transport.
   */
  function Dispatch(name: string, params: Params, t: Transport): (r: (Shell, Error))
    ensures SentinelHolds(r)
    ensures Envelope(name, params).Unsupported? ==>
              r == (ZeroShell, Error(ClientErrorCode, Envelope(name, params).message, []))
    ensures Envelope(name, params).Encoded? ==> r == Resolve(t(Envelope(name, params).doc))
  {
    match Envelope(name, params)
    case Unsupported(msg) => ClientError(msg)
    case Encoded(body) => Resolve(t(body))
  }

  /** The four values that implement the Response interface. */
  datatype Response =
    | StatusResponse(status: Status)
    | ResultResponse(result: Result)
    | SignedResponse(signed: SignedResult)
    | VerifiedResponse(verified: VerifiedSignature)

  const GetUsageMethod := "getUsage"
  const VerifySignatureMethod := "verifySignature"

  /**
    `Request`: the error passes through with a nil response; otherwise the
    result is a Status for "getUsage" and a Result for any other name.
   */
  function Request(name: string, params: Params, t: Transport): (r: (Option<Response>, Error))
    ensures Dispatch(name, params, t).1.message != "" ==> r == (None, Dispatch(name, params, t).1)
    ensures Dispatch(name, params, t).1.message == "" ==> r.1 == NoError && r.0.Some?
    ensures r.0.Some? ==> (r.0.value.StatusResponse? <==> name == GetUsageMethod)
    ensures r.0.Some? ==> (r.0.value.ResultResponse? <==> name != GetUsageMethod)
    ensures r.0.Some? && name == GetUsageMethod ==>
              r.0.value.status == UnmarshalStatus(Dispatch(name, params, t).0.result)
    ensures r.0.Some? && name != GetUsageMethod ==>
              r.0.value.result == UnmarshalResult(Dispatch(name, params, t).0.result)
  {
    var (response, err) := Dispatch(name, params, t);
    if err.message != "" then (None, err)
    else if name == GetUsageMethod then (Some(StatusResponse(UnmarshalStatus(response.result))), NoError)
    else (Some(ResultResponse(UnmarshalResult(response.result))), NoError)
  }

  /**
    `SignedRequest`: the error passes through with a nil response; otherwise
    the result is a VerifiedSignature for "verifySignature" and a
    SignedResult, its `random` member kept as raw bytes, for any other name.
   */
  function SignedRequest(name: string, params: Params, t: Transport): (r: (Option<Response>, Error))
    ensures Dispatch(name, params, t).1.message != "" ==> r == (None, Dispatch(name, params, t).1)
    ensures Dispatch(name, params, t).1.message == "" ==> r.1 == NoError && r.0.Some?
    ensures r.0.Some? ==> (r.0.value.VerifiedResponse? <==> name == VerifySignatureMethod)
    ensures r.0.Some? ==> (r.0.value.SignedResponse? <==> name != VerifySignatureMethod)
    ensures r.0.Some? && name == VerifySignatureMethod ==>
              r.0.value.verified == UnmarshalVerified(Dispatch(name, params, t).0.result)
    ensures r.0.Some? && name != VerifySignatureMethod ==>
              r.0.value.signed == UnmarshalSigned(Dispatch(name, params, t).0.result)
  {
    var (response, err) := Dispatch(name, params, t);
    if err.message != "" then (None, err)
    else if name == VerifySignatureMethod then
      (Some(VerifiedResponse(UnmarshalVerified(response.result))), NoError)
    else (Some(SignedResponse(UnmarshalSigned(response.result))), NoError)
  }

  /** What `Content()` returns, as a Go `interface{}` holding one of these. */
  datatype Content =
    | DataContent(items: seq<Any>)
    | StatusContent(status: Status)
    | SignedContent(signed: SignedResult)
    | VerifiedContent(verified: VerifiedSignature)

  /** `c.([]interface{})` in its comma-ok form. */
  function AsData(c: Content): Option<seq<Any>> {
    if c.DataContent? then Some(c.items) else None
  }

  /** `c.(Status)` in its comma-ok form. */
  function AsStatus(c: Content): Option<Status> {
    if c.StatusContent? then Some(c.status) else None
  }

  /** `c.(SignedResult)` in its comma-ok form. */
  function AsSigned(c: Content): Option<SignedResult> {
    if c.SignedContent? then Some(c.signed) else None
  }

  /** `c.(VerifiedSignature)` in its comma-ok form. */
  function AsVerified(c: Content): Option<VerifiedSignature> {
    if c.VerifiedContent? then Some(c.verified) else None
  }

  /**
    `Content()`: a Result yields its data array, every other variant yields
    itself, so asserting back to its own type recovers it unchanged.
   */
  function ContentOf(r: Response): (c: Content)
    ensures AsData(c) == (if r.ResultResponse? then Some(r.result.random.data) else None)
    ensures AsStatus(c) == (if r.StatusResponse? then Some(r.status) else None)
    ensures AsSigned(c) == (if r.SignedResponse? then Some(r.signed) else None)
    ensures AsVerified(c) == (if r.VerifiedResponse? then Some(r.verified) else None)
  {
    match r
    case StatusResponse(s) => StatusContent(s)
    case ResultResponse(res) => DataContent(res.random.data)
    case SignedResponse(sr) => SignedContent(sr)
    case VerifiedResponse(vs) => VerifiedContent(vs)
  }

  /** The two values a façade method returns, or a run-time panic. */
  datatype Outcome<T> = Returned(value: T, err: Error) | Panicked

  /**
    A 200 answer whose body carries no error message (an empty or malformed
    body included) is a success, and so is a non-200 answer whose body does
    not decode to an error record with a message.
   */
  lemma UnreadableErrorBodyIsSuccess(name: string, params: Params, t: Transport, status: int)
    requires Envelope(name, params).Encoded?
    requires t(Envelope(name, params).doc) == Answered(status, NotJson)
    ensures Request(name, params, t).1 == NoError
    ensures name != GetUsageMethod ==> Request(name, params, t).0 == Some(ResultResponse(ZeroResult))
  {
  }
}
