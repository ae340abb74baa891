/**
  The client handle and the unsigned façade methods of raw_basic_methods.go
  and basic_methods.go: each builds its parameter record from the stored API
  key and its arguments, sends it under a fixed method name, and either
  returns the decoded Result or narrows its generic data array to a typed one.
 */
module Basic {
  import opened Wrappers
  import opened Json
  import opened Generic
  import opened Wire
  import opened Core

  /** The client handle: it holds the API key and nothing else. */
  datatype Client = Client(apiKey: string)

  // ---------------------------------------------------------------------------
  // Narrowing generic values
  // ---------------------------------------------------------------------------

  /** Go's conversion of a float64 to int: the fraction is dropped, toward zero. */
  function Trunc(x: real): (r: int)
    ensures 0.0 <= x ==> r as real <= x < r as real + 1.0
    ensures x < 0.0 ==> r as real - 1.0 < x <= r as real
  {
    if x >= 0.0 then x.Floor else -((-x).Floor)
  }

  /** `int(v.(float64))`; `None` where the assertion panics. */
  function IntOf(v: Any): Option<int> {
    if v.Float? then Some(Trunc(v.x)) else None
  }

  /** `float64(v.(float64))`; `None` where the assertion panics. */
  function FloatOf(v: Any): Option<real> {
    if v.Float? then Some(v.x) else None
  }

  /** `string(v.(string))`; `None` where the assertion panics. */
  function StringOf(v: Any): Option<string> {
    if v.Str? then Some(v.s) else None
  }

  /**
    The loop that fills the typed slice: element i is the cast of wire
    element i; a single element the cast refuses makes the whole loop panic.
   */
  function Narrow<T>(data: seq<Any>, cast: Any -> Option<T>): (r: Option<seq<T>>)
    ensures r.Some? <==> forall i :: 0 <= i < |data| ==> cast(data[i]).Some?
    ensures r.Some? ==> |r.value| == |data|
    ensures r.Some? ==> forall i :: 0 <= i < |data| ==> r.value[i] == cast(data[i]).value
    decreases |data|
  {
    if data == [] then Some([])
    else
      var head := cast(data[0]);
      var rest := Narrow(data[1..], cast);
      assert forall i :: 0 < i < |data| ==> data[1..][i - 1] == data[i];
      if head.None? || rest.None? then None
      else Some([head.value] + rest.value)
  }

  // ---------------------------------------------------------------------------
  // The *Raw methods
  // ---------------------------------------------------------------------------

  /**
    What a *Raw method returns for the transport's answer `x` to its request:
    the zero Result and the error, or the decoded Result and no error.
   */
  ghost predicate RawReply(r: Outcome<Result>, x: Exchange) {
    var (shell, err) := Resolve(x);
    if err.message != "" then r == Returned(ZeroResult, err)
    else r == Returned(UnmarshalResult(shell.result), NoError)
  }

  /**
    The body every *Raw method shares: `Request`, then `result.(Result)`. A
    parameter record that cannot be encoded never reaches the transport.
   */
  function RawCall(name: string, params: Params, t: Transport): (r: Outcome<Result>)
    requires name != GetUsageMethod
    ensures MarshalParams(params).Encoded? ==> RawReply(r, t(Rpc(name, MarshalParams(params).doc)))
    ensures MarshalParams(params).Unsupported? ==>
              r == Returned(ZeroResult, Error(ClientErrorCode, MarshalParams(params).message, []))
  {
    var (result, err) := Request(name, params, t);
    if err.message != "" then Returned(ZeroResult, err)
    else if result.Some? && result.value.ResultResponse? then Returned(result.value.result, err)
    else Panicked
  }

  function GenerateIntegersRaw(c: Client, n: int, min: int, max: int, replacement: bool, t: Transport)
    : (r: Outcome<Result>)
    ensures RawReply(r, t(Rpc("generateIntegers", JObject(
              [StringMember("apiKey", c.apiKey), IntMember("n", n), IntMember("min", min), IntMember("max", max)]
              + Flag("replacement", replacement)))))
  {
    RawCall("generateIntegers", IntegersReq(c.apiKey, n, min, max, replacement), t)
  }

  function GenerateDecimalFractionsRaw(c: Client, n: int, decimalPlaces: int, replacement: bool, t: Transport)
    : (r: Outcome<Result>)
    ensures RawReply(r, t(Rpc("generateDecimalFractions", JObject(
              [StringMember("apiKey", c.apiKey), IntMember("n", n), IntMember("decimalPlaces", decimalPlaces)]
              + Flag("replacement", replacement)))))
  {
    RawCall("generateDecimalFractions", DecimalFractionsReq(c.apiKey, n, decimalPlaces, replacement), t)
  }

  /**
    A NaN or infinite mean or deviation fails to encode: the transport is
    never called and the error is the synthetic client error.
   */
  function GenerateGaussiansRaw(c: Client, n: int, mean: Float64, standardDeviation: Float64,
                                significantDigits: int, t: Transport): (r: Outcome<Result>)
    ensures mean.Finite? && standardDeviation.Finite? ==>
              RawReply(r, t(Rpc("generateGaussians", JObject(
                [StringMember("apiKey", c.apiKey), IntMember("n", n), Member("mean", JNumber(mean.value)),
                 Member("standardDeviation", JNumber(standardDeviation.value)),
                 IntMember("significantDigits", significantDigits)]))))
    ensures !mean.Finite? ==>
              r == Returned(ZeroResult, Error(ClientErrorCode, "json: unsupported value: " + FloatText(mean), []))
    ensures mean.Finite? && !standardDeviation.Finite? ==>
              r == Returned(ZeroResult,
                            Error(ClientErrorCode, "json: unsupported value: " + FloatText(standardDeviation), []))
  {
    RawCall("generateGaussians", GaussiansReq(c.apiKey, n, mean, standardDeviation, significantDigits), t)
  }

  function GenerateStringsRaw(c: Client, n: int, length: int, characters: string, replacement: bool, t: Transport)
    : (r: Outcome<Result>)
    ensures RawReply(r, t(Rpc("generateStrings", JObject(
              [StringMember("apiKey", c.apiKey), IntMember("n", n), IntMember("length", length), StringMember("characters", characters)]
              + Flag("replacement", replacement)))))
  {
    RawCall("generateStrings", StringsReq(c.apiKey, n, length, characters, replacement), t)
  }

  function GenerateUUIDsRaw(c: Client, n: int, t: Transport): (r: Outcome<Result>)
    ensures RawReply(r, t(Rpc("generateUUIDs", JObject([StringMember("apiKey", c.apiKey), IntMember("n", n)]))))
  {
    RawCall("generateUUIDs", UUIDsReq(c.apiKey, n), t)
  }

  function GenerateBlobsRaw(c: Client, n: int, size: int, format: string, t: Transport): (r: Outcome<Result>)
    ensures RawReply(r, t(Rpc("generateBlobs", JObject(
              [StringMember("apiKey", c.apiKey), IntMember("n", n), IntMember("size", size), StringMember("format", format)]))))
  {
    RawCall("generateBlobs", BlobsReq(c.apiKey, n, size, format), t)
  }

  // ---------------------------------------------------------------------------
  // The typed generators
  // ---------------------------------------------------------------------------

  /**
    What a typed generator returns given its *Raw call: the empty slice and
    the error, or one element per wire element, each the cast of the element
    at the same position; a panic exactly when some element has the wrong type.
   */
  ghost predicate Extracted<T>(r: Outcome<seq<T>>, raw: Outcome<Result>, cast: Any -> Option<T>) {
    && raw.Returned?
    && (raw.err.message != "" ==> r == Returned([], raw.err))
    && (raw.err.message == "" ==>
          var data := raw.value.random.data;
          && (r.Returned? <==> forall i :: 0 <= i < |data| ==> cast(data[i]).Some?)
          && (r.Returned? ==> r.err == NoError && |r.value| == |data|)
          && (r.Returned? ==> forall i :: 0 <= i < |data| ==> r.value[i] == cast(data[i]).value))
  }

  /** The body every typed generator shares after its *Raw call. */
  function Typed<T>(raw: Outcome<Result>, cast: Any -> Option<T>): (r: Outcome<seq<T>>)
    requires raw.Returned?
    ensures Extracted(r, raw, cast)
  {
    if raw.err.message != "" then Returned([], raw.err)
    else
      var data := AsData(ContentOf(ResultResponse(raw.value))).GetOr([]);
      match Narrow(data, cast)
      case None => Panicked
      case Some(xs) => Returned(xs, NoError)
  }

  function GenerateIntegers(c: Client, n: int, min: int, max: int, replacement: bool, t: Transport)
    : (r: Outcome<seq<int>>)
    ensures Extracted(r, GenerateIntegersRaw(c, n, min, max, replacement, t), IntOf)
  {
    Typed(GenerateIntegersRaw(c, n, min, max, replacement, t), IntOf)
  }

  function GenerateDecimalFractions(c: Client, n: int, decimalPlaces: int, replacement: bool, t: Transport)
    : (r: Outcome<seq<real>>)
    ensures Extracted(r, GenerateDecimalFractionsRaw(c, n, decimalPlaces, replacement, t), FloatOf)
  {
    Typed(GenerateDecimalFractionsRaw(c, n, decimalPlaces, replacement, t), FloatOf)
  }

  function GenerateGaussians(c: Client, n: int, mean: Float64, standardDeviation: Float64,
                             significantDigits: int, t: Transport): (r: Outcome<seq<real>>)
    ensures Extracted(r, GenerateGaussiansRaw(c, n, mean, standardDeviation, significantDigits, t), FloatOf)
  {
    Typed(GenerateGaussiansRaw(c, n, mean, standardDeviation, significantDigits, t), FloatOf)
  }

  function GenerateStrings(c: Client, n: int, length: int, characters: string, replacement: bool, t: Transport)
    : (r: Outcome<seq<string>>)
    ensures Extracted(r, GenerateStringsRaw(c, n, length, characters, replacement, t), StringOf)
  {
    Typed(GenerateStringsRaw(c, n, length, characters, replacement, t), StringOf)
  }

  function GenerateUUIDs(c: Client, n: int, t: Transport): (r: Outcome<seq<string>>)
    ensures Extracted(r, GenerateUUIDsRaw(c, n, t), StringOf)
  {
    Typed(GenerateUUIDsRaw(c, n, t), StringOf)
  }

  function GenerateBlobs(c: Client, n: int, size: int, format: string, t: Transport): (r: Outcome<seq<string>>)
    ensures Extracted(r, GenerateBlobsRaw(c, n, size, format, t), StringOf)
  {
    Typed(GenerateBlobsRaw(c, n, size, format, t), StringOf)
  }

  // ---------------------------------------------------------------------------
  // GetUsage
  // ---------------------------------------------------------------------------

  /** Sends `{apiKey}` under "getUsage"; the `.(Status)` assertion never fails. */
  function GetUsage(c: Client, t: Transport): (r: Outcome<Status>)
    ensures var (shell, err) := Resolve(t(Rpc("getUsage", JObject([StringMember("apiKey", c.apiKey)]))));
            if err.message != "" then r == Returned(ZeroStatus, err)
            else r == Returned(UnmarshalStatus(shell.result), NoError)
  {
    var (status, err) := Request(GetUsageMethod, StatusReq(c.apiKey), t);
    if err.message != "" then Returned(ZeroStatus, err)
    else if status.None? then Panicked
    else
      match AsStatus(ContentOf(status.value))
      case None => Panicked
      case Some(s) => Returned(s, err)
  }
}
