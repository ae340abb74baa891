/**
  The signed façade methods of signed_methods.go: each sends its parameter
  record through `SignedRequest`, keeps the service's `random` object as raw
  bytes, decodes those bytes a second time for the data, the hashed key and
  the serial number, and returns them beside the signature. `VerifySignature`
  sends such raw bytes back, re-encoded, together with a signature.
 */
module Signed {
  import opened Wrappers
  import opened Json
  import opened Generic
  import opened Wire
  import opened Core
  import opened Basic

  /** SignedIntegerData, SignedFloatData and SignedStringData, by element type. */
  datatype SignedData<T> = SignedData(data: seq<T>, raw: Text, hashedApiKey: string, serialNumber: int,
                                      signature: string)

  /** The zero value of a Signed*Data struct. */
  function ZeroSigned<T>(): SignedData<T> {
    SignedData([], NotJson, "", 0, "")
  }

  /**
    What a signed generator returns for the transport's answer `x`: the zero
    record and the error; or, when every element of the data decoded from the
    raw `random` bytes has the expected type, those elements cast one by one,
    the raw bytes and signature of the signed result, and the hashed key and
    serial number decoded from the same raw bytes; or a panic.
   */
  ghost predicate SignedReply<T>(r: Outcome<SignedData<T>>, x: Exchange, cast: Any -> Option<T>) {
    var (shell, err) := Resolve(x);
    if err.message != "" then r == Returned(ZeroSigned(), err)
    else
      var sr := UnmarshalSigned(shell.result);
      var random := UnmarshalRandom(sr.raw);
      && (r.Returned? <==> forall i :: 0 <= i < |random.data| ==> cast(random.data[i]).Some?)
      && (r.Returned? ==>
            && r.err == NoError
            && r.value.raw == sr.raw
            && r.value.signature == sr.signature
            && r.value.hashedApiKey == random.hashedApiKey
            && r.value.serialNumber == random.serialNumber
            && |r.value.data| == |random.data|
            && forall i :: 0 <= i < |random.data| ==> r.value.data[i] == cast(random.data[i]).value)
  }

  /** The part every signed generator shares after the signed result is in hand. */
  function Assemble<T>(sr: SignedResult, cast: Any -> Option<T>): (r: Outcome<SignedData<T>>)
    ensures var random := UnmarshalRandom(sr.raw);
            && (r.Returned? <==> forall i :: 0 <= i < |random.data| ==> cast(random.data[i]).Some?)
            && (r.Returned? ==>
                  && r.err == NoError
                  && r.value.raw == sr.raw
                  && r.value.signature == sr.signature
                  && r.value.hashedApiKey == random.hashedApiKey
                  && r.value.serialNumber == random.serialNumber
                  && |r.value.data| == |random.data|
                  && forall i :: 0 <= i < |random.data| ==> r.value.data[i] == cast(random.data[i]).value)
  {
    var random := UnmarshalRandom(sr.raw);
    match Narrow(random.data, cast)
    case None => Panicked
    case Some(xs) => Returned(SignedData(xs, sr.raw, random.hashedApiKey, random.serialNumber, sr.signature), NoError)
  }

  /**
    The body every signed generator shares: `SignedRequest`, then
    `Content().(SignedResult)` in its comma-ok form, then `Assemble`. A
    parameter record that cannot be encoded never reaches the transport.
   */
  function SignedCall<T>(name: string, params: Params, cast: Any -> Option<T>, t: Transport)
    : (r: Outcome<SignedData<T>>)
    requires name != VerifySignatureMethod
    ensures MarshalParams(params).Encoded? ==> SignedReply(r, t(Rpc(name, MarshalParams(params).doc)), cast)
    ensures MarshalParams(params).Unsupported? ==>
              r == Returned(ZeroSigned(), Error(ClientErrorCode, MarshalParams(params).message, []))
  {
    var (result, err) := SignedRequest(name, params, t);
    if err.message != "" then Returned(ZeroSigned(), err)
    else if result.None? then Panicked
    else Assemble(AsSigned(ContentOf(result.value)).GetOr(ZeroSignedResult), cast)
  }

  function GenerateSignedIntegers(c: Client, n: int, min: int, max: int, replacement: bool, t: Transport)
    : (r: Outcome<SignedData<int>>)
    ensures SignedReply(r, t(Rpc("generateSignedIntegers", JObject(
              [StringMember("apiKey", c.apiKey), IntMember("n", n), IntMember("min", min), IntMember("max", max)]
              + Flag("replacement", replacement)))), IntOf)
  {
    SignedCall("generateSignedIntegers", IntegersReq(c.apiKey, n, min, max, replacement), IntOf, t)
  }

  function GenerateSignedDecimalFractions(c: Client, n: int, decimalPlaces: int, replacement: bool, t: Transport)
    : (r: Outcome<SignedData<real>>)
    ensures SignedReply(r, t(Rpc("generateSignedDecimalFractions", JObject(
              [StringMember("apiKey", c.apiKey), IntMember("n", n), IntMember("decimalPlaces", decimalPlaces)]
              + Flag("replacement", replacement)))), FloatOf)
  {
    SignedCall("generateSignedDecimalFractions", DecimalFractionsReq(c.apiKey, n, decimalPlaces, replacement),
               FloatOf, t)
  }

  /** As for the unsigned call, a NaN or infinite argument never reaches the transport. */
  function GenerateSignedGaussians(c: Client, n: int, mean: Float64, standardDeviation: Float64,
                                   significantDigits: int, t: Transport): (r: Outcome<SignedData<real>>)
    ensures mean.Finite? && standardDeviation.Finite? ==>
              SignedReply(r, t(Rpc("generateSignedGaussians", JObject(
                [StringMember("apiKey", c.apiKey), IntMember("n", n), Member("mean", JNumber(mean.value)),
                 Member("standardDeviation", JNumber(standardDeviation.value)),
                 IntMember("significantDigits", significantDigits)]))), FloatOf)
    ensures !mean.Finite? ==>
              r == Returned(ZeroSigned(), Error(ClientErrorCode, "json: unsupported value: " + FloatText(mean), []))
    ensures mean.Finite? && !standardDeviation.Finite? ==>
              r == Returned(ZeroSigned(),
                            Error(ClientErrorCode, "json: unsupported value: " + FloatText(standardDeviation), []))
  {
    SignedCall("generateSignedGaussians", GaussiansReq(c.apiKey, n, mean, standardDeviation, significantDigits),
               FloatOf, t)
  }

  function GenerateSignedStrings(c: Client, n: int, length: int, characters: string, replacement: bool,
                                 t: Transport): (r: Outcome<SignedData<string>>)
    ensures SignedReply(r, t(Rpc("generateSignedStrings", JObject(
              [StringMember("apiKey", c.apiKey), IntMember("n", n), IntMember("length", length),
               StringMember("characters", characters)]
              + Flag("replacement", replacement)))), StringOf)
  {
    SignedCall("generateSignedStrings", StringsReq(c.apiKey, n, length, characters, replacement), StringOf, t)
  }

  function GenerateSignedUUIDs(c: Client, n: int, t: Transport): (r: Outcome<SignedData<string>>)
    ensures SignedReply(r, t(Rpc("generateSignedUUIDs", JObject([StringMember("apiKey", c.apiKey),
                                                                 IntMember("n", n)]))), StringOf)
  {
    SignedCall("generateSignedUUIDs", UUIDsReq(c.apiKey, n), StringOf, t)
  }

  function GenerateSignedBlobs(c: Client, n: int, size: int, format: string, t: Transport)
    : (r: Outcome<SignedData<string>>)
    ensures SignedReply(r, t(Rpc("generateSignedBlobs", JObject(
              [StringMember("apiKey", c.apiKey), IntMember("n", n), IntMember("size", size),
               StringMember("format", format)]))), StringOf)
  {
    SignedCall("generateSignedBlobs", BlobsReq(c.apiKey, n, size, format), StringOf, t)
  }

  // ---------------------------------------------------------------------------
  // VerifySignature
  // ---------------------------------------------------------------------------

  /**
    The `random` member VerifySignature sends: the raw bytes decoded into a
    `map[string]interface{}` and encoded again. It is null unless the bytes
    hold an object, its keys come out sorted, and it reproduces the original
    document exactly when that document is null or an object whose keys are
    already unique and sorted at every level.
   */
  function ResentPayload(random: Text): (j: Json)
    ensures Canonical(j)
    ensures j == JNull <==> !(random.Doc? && random.doc.JObject?)
    ensures (random.Doc? && j == random.doc) <==>
            (random.Doc? && (random.doc.JNull? || (random.doc.JObject? && Canonical(random.doc))))
  {
    match UnmarshalObject(random)
    case None => JNull
    case Some(es) =>
      assert ToAny(random.doc) == Dict(es);
      ReEncodeIdentity(random.doc);
      FromAny(Dict(es))
  }

  /**
    Whatever key order or duplicates the raw object had, decoding the re-sent
    member into a map gives back the map the raw bytes decoded to.
   */
  lemma ResentPayloadSameMap(random: Text)
    ensures UnmarshalObject(Doc(ResentPayload(random))) == UnmarshalObject(random)
  {
    match UnmarshalObject(random)
    case None =>
    case Some(es) =>
      assert ToAny(random.doc) == Dict(es);
      DecodeEncode(Dict(es));
  }

  /**
    `VerifySignature`: the error passes through with false; otherwise the
    decoded authenticity flag. The `.(VerifiedSignature)` assertion never fails.
   */
  function VerifySignature(c: Client, random: Text, signature: string, t: Transport): (r: Outcome<bool>)
    ensures var (shell, err) := Resolve(t(Rpc("verifySignature", JObject(
                                  [Member("random", ResentPayload(random)), StringMember("signature", signature)]))));
            if err.message != "" then r == Returned(false, err)
            else r == Returned(UnmarshalVerified(shell.result).authenticity, NoError)
  {
    var (result, err) := SignedRequest(VerifySignatureMethod, VerifySignatureReq(UnmarshalObject(random), signature), t);
    if err.message != "" then Returned(false, err)
    else if result.Some? && result.value.VerifiedResponse? then Returned(result.value.verified.authenticity, NoError)
    else Panicked
  }
}
