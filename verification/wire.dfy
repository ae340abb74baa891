/**
  The records that travel between the client and the random.org JSON-RPC
  service, and how Go's `encoding/json` maps them to and from JSON through
  their struct tags (core.go:25-204).
 */
module Wire {
  import opened Wrappers
  import opened Json
  import opened Generic

  // ---------------------------------------------------------------------------
  // Records
  // ---------------------------------------------------------------------------

  /** The error record; an empty `message` is the "no error" sentinel. */
  datatype Error = Error(code: int, message: string, data: seq<Any>)

  const NoError := Error(0, "", [])

  /** The outer response envelope; `result` is kept as undecoded bytes. */
  datatype Shell = Shell(version: string, result: Text, error: Error, id: int)

  const ZeroShell := Shell("", NotJson, NoError, 0)

  datatype Random = Random(data: seq<Any>, completionTime: string, serialNumber: int, hashedApiKey: string)

  const ZeroRandom := Random([], "", 0, "")

  datatype Result = Result(random: Random, bitsUsed: int, bitsLeft: int, requestsLeft: int, advisoryDelay: int)

  const ZeroResult := Result(ZeroRandom, 0, 0, 0, 0)

  datatype Status = Status(status: string, creationTime: string, bitsLeft: int, requestsLeft: int,
                           totalBits: int, totalRequests: int)

  const ZeroStatus := Status("", "", 0, 0, 0, 0)

  datatype VerifiedSignature = VerifiedSignature(authenticity: bool)

  /** A signed result keeps its `random` member as the bytes received. */
  datatype SignedResult = SignedResult(raw: Text, signature: string, bitsUsed: int, bitsLeft: int,
                                       requestsLeft: int, advisoryDelay: int)

  const ZeroSignedResult := SignedResult(NotJson, "", 0, 0, 0, 0)

  /** A Go float64 argument: the encoder refuses NaN and the infinities. */
  datatype Float64 = Finite(value: real) | NaN | PosInf | NegInf

  /** The per-method parameter records. The credential is a plain field of each. */
  datatype Params =
    | IntegersReq(apiKey: string, n: int, min: int, max: int, replacement: bool)
    | DecimalFractionsReq(apiKey: string, n: int, decimalPlaces: int, replacement: bool)
    | GaussiansReq(apiKey: string, n: int, mean: Float64, standardDeviation: Float64, significantDigits: int)
    | StringsReq(apiKey: string, n: int, length: int, characters: string, replacement: bool)
    | UUIDsReq(apiKey: string, n: int)
    | BlobsReq(apiKey: string, n: int, size: int, format: string)
    | StatusReq(apiKey: string)
      /** `random` is a Go `map[string]interface{}`; `None` is the nil map. */
    | VerifySignatureReq(random: Option<seq<Entry>>, signature: string)

  // ---------------------------------------------------------------------------
  // Encoding
  // ---------------------------------------------------------------------------

  /** The outcome of `json.Marshal`. */
  datatype Encoding = Encoded(doc: Json) | Unsupported(message: string)

  const Version := "2.0"
  const RequestId := 1

  /** A JSON-RPC 2.0 request, with the members in RequestShell's field order. */
  function Rpc(name: string, params: Json): Json {
    JObject([Member("jsonrpc", JString(Version)), Member("params", params),
             Member("method", JString(name)), Member("id", JNumber(RequestId as real))])
  }

  function IntMember(key: string, n: int): Member { Member(key, JNumber(n as real)) }

  function StringMember(key: string, s: string): Member { Member(key, JString(s)) }

  /** A `bool` field tagged `omitempty`: present only when true. */
  function Flag(key: string, b: bool): seq<Member> {
    if b then [Member(key, JBool(true))] else []
  }

  /** The text `strconv.FormatFloat(f, 'g', -1, 64)` gives a non-finite float. */
  function FloatText(f: Float64): string {
    match f
    case NaN => "NaN"
    case PosInf => "+Inf"
    case NegInf => "-Inf"
    case Finite(_) => ""
  }

  /** A float64 field; a non-finite value makes the whole encoding fail. */
  function FloatValue(f: Float64): Encoding {
    if f.Finite? then Encoded(JNumber(f.value))
    else Unsupported("json: unsupported value: " + FloatText(f))
  }

  /** `json.Marshal` of a parameter record, members in struct field order. */
  function MarshalParams(p: Params): Encoding {
    match p
    case IntegersReq(key, n, min, max, replacement) =>
      Encoded(JObject([StringMember("apiKey", key), IntMember("n", n), IntMember("min", min), IntMember("max", max)]
                      + Flag("replacement", replacement)))
    case DecimalFractionsReq(key, n, places, replacement) =>
      Encoded(JObject([StringMember("apiKey", key), IntMember("n", n), IntMember("decimalPlaces", places)]
                      + Flag("replacement", replacement)))
    case GaussiansReq(key, n, mean, sd, digits) =>
      if FloatValue(mean).Unsupported? then FloatValue(mean)
      else if FloatValue(sd).Unsupported? then FloatValue(sd)
      else Encoded(JObject([StringMember("apiKey", key), IntMember("n", n), Member("mean", FloatValue(mean).doc),
                            Member("standardDeviation", FloatValue(sd).doc), IntMember("significantDigits", digits)]))
    case StringsReq(key, n, length, characters, replacement) =>
      Encoded(JObject([StringMember("apiKey", key), IntMember("n", n), IntMember("length", length), StringMember("characters", characters)]
                      + Flag("replacement", replacement)))
    case UUIDsReq(key, n) =>
      Encoded(JObject([StringMember("apiKey", key), IntMember("n", n)]))
    case BlobsReq(key, n, size, format) =>
      Encoded(JObject([StringMember("apiKey", key), IntMember("n", n), IntMember("size", size), StringMember("format", format)]))
    case StatusReq(key) =>
      Encoded(JObject([StringMember("apiKey", key)]))
    case VerifySignatureReq(random, signature) =>
      var obj := if random.None? then JNull else FromAny(Dict(random.value));
      Encoded(JObject([Member("random", obj), StringMember("signature", signature)]))
  }

  /** `json.Marshal` of the request envelope for method `name` carrying `p`. */
  function Envelope(name: string, p: Params): Encoding {
    match MarshalParams(p)
    case Unsupported(msg) => Unsupported(msg)
    case Encoded(params) => Encoded(Rpc(name, params))
  }

  // ---------------------------------------------------------------------------
  // Decoding: a struct is filled member by member; a member whose key names
  // no field is skipped. A scalar field takes a value of its own JSON type
  // and ignores any other, null included; a slice field takes an array and is
  // cleared by null; a raw field takes any value, null included; a struct
  // field is decoded into as it stands, so duplicates merge.
  // ---------------------------------------------------------------------------

  const MinInt64 := -0x8000_0000_0000_0000
  const MaxInt64 := 0x7fff_ffff_ffff_ffff

  /** A Go `int` field: only an integral number within 64 bits is taken. */
  function IntField(prev: int, v: Json): int {
    if v.JNumber? && v.x.Floor as real == v.x && MinInt64 <= v.x.Floor <= MaxInt64 then v.x.Floor else prev
  }

  function StringField(prev: string, v: Json): string {
    if v.JString? then v.s else prev
  }

  function BoolField(prev: bool, v: Json): bool {
    if v.JBool? then v.b else prev
  }

  /** A `[]interface{}` field: an array replaces it, null clears it. */
  function ListField(prev: seq<Any>, v: Json): seq<Any> {
    match v
    case JArray(items) => seq(|items|, i requires 0 <= i < |items| => ToAny(items[i]))
    case JNull => []
    case _ => prev
  }

  /** Decodes `j` into the struct `acc` with the per-member `step`. */
  function DecodeInto<S>(acc: S, j: Json, step: (S, Member) -> S): S {
    if j.JObject? then Fold(acc, j.members, step) else acc
  }

  function ErrorStep(e: Error, m: Member): Error {
    if m.key == "code" then e.(code := IntField(e.code, m.value))
    else if m.key == "message" then e.(message := StringField(e.message, m.value))
    else if m.key == "data" then e.(data := ListField(e.data, m.value))
    else e
  }

  function ShellStep(s: Shell, m: Member): Shell {
    if m.key == "jsonrpc" then s.(version := StringField(s.version, m.value))
    else if m.key == "result" then s.(result := Doc(m.value))
    else if m.key == "error" then s.(error := DecodeInto(s.error, m.value, ErrorStep))
    else if m.key == "id" then s.(id := IntField(s.id, m.value))
    else s
  }

  function RandomStep(r: Random, m: Member): Random {
    if m.key == "data" then r.(data := ListField(r.data, m.value))
    else if m.key == "completionTime" then r.(completionTime := StringField(r.completionTime, m.value))
    else if m.key == "serialNumber" then r.(serialNumber := IntField(r.serialNumber, m.value))
    else if m.key == "hashedApiKey" then r.(hashedApiKey := StringField(r.hashedApiKey, m.value))
    else r
  }

  function ResultStep(r: Result, m: Member): Result {
    if m.key == "random" then r.(random := DecodeInto(r.random, m.value, RandomStep))
    else if m.key == "bitsUsed" then r.(bitsUsed := IntField(r.bitsUsed, m.value))
    else if m.key == "bitsLeft" then r.(bitsLeft := IntField(r.bitsLeft, m.value))
    else if m.key == "requestsLeft" then r.(requestsLeft := IntField(r.requestsLeft, m.value))
    else if m.key == "advisoryDelay" then r.(advisoryDelay := IntField(r.advisoryDelay, m.value))
    else r
  }

  function StatusStep(s: Status, m: Member): Status {
    if m.key == "status" then s.(status := StringField(s.status, m.value))
    else if m.key == "creationTime" then s.(creationTime := StringField(s.creationTime, m.value))
    else if m.key == "bitsLeft" then s.(bitsLeft := IntField(s.bitsLeft, m.value))
    else if m.key == "requestsLeft" then s.(requestsLeft := IntField(s.requestsLeft, m.value))
    else if m.key == "totalBits" then s.(totalBits := IntField(s.totalBits, m.value))
    else if m.key == "totalRequests" then s.(totalRequests := IntField(s.totalRequests, m.value))
    else s
  }

  /** The `random` member is copied as raw bytes, whatever its type, null included. */
  function SignedStep(s: SignedResult, m: Member): SignedResult {
    if m.key == "random" then s.(raw := Doc(m.value))
    else if m.key == "signature" then s.(signature := StringField(s.signature, m.value))
    else if m.key == "bitsUsed" then s.(bitsUsed := IntField(s.bitsUsed, m.value))
    else if m.key == "bitsLeft" then s.(bitsLeft := IntField(s.bitsLeft, m.value))
    else if m.key == "requestsLeft" then s.(requestsLeft := IntField(s.requestsLeft, m.value))
    else if m.key == "advisoryDelay" then s.(advisoryDelay := IntField(s.advisoryDelay, m.value))
    else s
  }

  /** The struct tag reads `authenticiity`; that exact key is the only one consulted. */
  const AuthenticityKey := "authenticiity"

  function VerifiedStep(v: VerifiedSignature, m: Member): VerifiedSignature {
    if m.key == AuthenticityKey then v.(authenticity := BoolField(v.authenticity, m.value))
    else v
  }

  // `json.Unmarshal(text, &x)` into a fresh zero `x`: text that is not JSON
  // leaves `x` zero.

  function UnmarshalError(t: Text): Error {
    if t.Doc? then DecodeInto(NoError, t.doc, ErrorStep) else NoError
  }

  function UnmarshalShell(t: Text): Shell {
    if t.Doc? then DecodeInto(ZeroShell, t.doc, ShellStep) else ZeroShell
  }

  function UnmarshalRandom(t: Text): Random {
    if t.Doc? then DecodeInto(ZeroRandom, t.doc, RandomStep) else ZeroRandom
  }

  function UnmarshalResult(t: Text): Result {
    if t.Doc? then DecodeInto(ZeroResult, t.doc, ResultStep) else ZeroResult
  }

  function UnmarshalStatus(t: Text): Status {
    if t.Doc? then DecodeInto(ZeroStatus, t.doc, StatusStep) else ZeroStatus
  }

  function UnmarshalSigned(t: Text): SignedResult {
    if t.Doc? then DecodeInto(ZeroSignedResult, t.doc, SignedStep) else ZeroSignedResult
  }

  function UnmarshalVerified(t: Text): VerifiedSignature {
    if t.Doc? then DecodeInto(VerifiedSignature(false), t.doc, VerifiedStep) else VerifiedSignature(false)
  }

  /**
    `json.Unmarshal(text, &object)` with `object` a nil `map[string]interface{}`:
    only an object makes a map; anything else leaves the map nil.
   */
  function UnmarshalObject(t: Text): Option<seq<Entry>> {
    if t.Doc? && t.doc.JObject? then Some(ToAny(t.doc).entries) else None
  }

  // ---------------------------------------------------------------------------
  // Facts about the encoding and the decoders
  // ---------------------------------------------------------------------------

  /** json.Marshal fails on a parameter record only for a non-finite Gaussian argument. */
  lemma MarshalFailsOnlyOnNonFinite(p: Params)
    ensures MarshalParams(p).Unsupported? <==>
            p.GaussiansReq? && (!p.mean.Finite? || !p.standardDeviation.Finite?)
    ensures p.GaussiansReq? && !p.mean.Finite? ==>
            MarshalParams(p) == Unsupported("json: unsupported value: " + FloatText(p.mean))
    ensures p.GaussiansReq? && p.mean.Finite? && !p.standardDeviation.Finite? ==>
            MarshalParams(p) == Unsupported("json: unsupported value: " + FloatText(p.standardDeviation))
  {
  }

  /** The request envelope as a receiver decodes it through RequestShell's tags. */
  datatype RequestShell = RequestShell(version: string, params: Text, methodName: string, id: int)

  const ZeroRequest := RequestShell("", NotJson, "", 0)

  function RequestStep(r: RequestShell, m: Member): RequestShell {
    if m.key == "jsonrpc" then r.(version := StringField(r.version, m.value))
    else if m.key == "params" then r.(params := Doc(m.value))
    else if m.key == "method" then r.(methodName := StringField(r.methodName, m.value))
    else if m.key == "id" then r.(id := IntField(r.id, m.value))
    else r
  }

  /**
    Every envelope that encodes decodes back to version "2.0", id 1, the
    method name as given and the marshalled parameters unchanged.
   */
  lemma EnvelopeRoundTrip(name: string, p: Params)
    requires Envelope(name, p).Encoded?
    ensures MarshalParams(p).Encoded?
    ensures DecodeInto(ZeroRequest, Envelope(name, p).doc, RequestStep)
            == RequestShell("2.0", Doc(MarshalParams(p).doc), name, 1)
  {
    var params := MarshalParams(p).doc;
    var ms := Envelope(name, p).doc.members;
    assert ms == [Member("jsonrpc", JString(Version)), Member("params", params),
                  Member("method", JString(name)), Member("id", JNumber(1 as real))];
    var r1 := RequestShell("2.0", NotJson, "", 0);
    var r2 := RequestShell("2.0", Doc(params), "", 0);
    var r3 := RequestShell("2.0", Doc(params), name, 0);
    assert (1 as real).Floor == 1;
    assert RequestStep(r3, ms[3]) == RequestShell("2.0", Doc(params), name, 1);
    assert Fold(r3, ms[3..], RequestStep) == RequestShell("2.0", Doc(params), name, 1) by {
      assert ms[3..][1..] == [];
    }
    assert Fold(r2, ms[2..], RequestStep) == Fold(r3, ms[3..], RequestStep) by {
      assert ms[2..][1..] == ms[3..];
    }
    assert Fold(r1, ms[1..], RequestStep) == Fold(r2, ms[2..], RequestStep) by {
      assert ms[1..][1..] == ms[2..];
    }
  }

  /**
    The signed result's raw bytes are the last `random` member's value,
    verbatim and unwalked; without such a member they stay nil.
   */
  lemma SignedRawVerbatim(ms: seq<Member>)
    ensures UnmarshalSigned(Doc(JObject(ms))).raw ==
            (match LastAccepted(ms, "random", AnyValue)
             case Some(v) => Doc(v)
             case None => NotJson)
  {
    FoldLast(ZeroSignedResult, ms, SignedStep, (s: SignedResult) => s.raw, "random", AnyValue, (v: Json) => Doc(v));
  }

  /**
    The verification flag is the last boolean under the exact key
    `authenticiity`; a reply without one decodes to false.
   */
  lemma AuthenticityFromExactKey(ms: seq<Member>)
    ensures UnmarshalVerified(Doc(JObject(ms))).authenticity ==
            (match LastAccepted(ms, AuthenticityKey, IsBool)
             case Some(v) => v.b
             case None => false)
  {
    FoldLast(VerifiedSignature(false), ms, VerifiedStep, (s: VerifiedSignature) => s.authenticity,
             AuthenticityKey, IsBool, (v: Json) => v.JBool? && v.b);
  }

  /** A reply that spells the key `authenticity` decodes to false. */
  lemma AuthenticitySpelledOtherwise()
    ensures !UnmarshalVerified(Doc(JObject([Member("authenticity", JBool(true))]))).authenticity
  {
    AuthenticityFromExactKey([Member("authenticity", JBool(true))]);
  }

  /** The JSON values a `[]interface{}` field takes: an array, or null to clear it. */
  predicate SetsList(v: Json) {
    v.JArray? || v.JNull?
  }

  /**
    The data of a Random is the last array (or null) under `data`, converted
    element by element; a `data` member of any other type is ignored, and
    without an array the data is empty.
   */
  lemma RandomDataFromLastArray(ms: seq<Member>)
    ensures UnmarshalRandom(Doc(JObject(ms))).data ==
            (match LastAccepted(ms, "data", SetsList)
             case Some(JArray(items)) => seq(|items|, i requires 0 <= i < |items| => ToAny(items[i]))
             case _ => [])
  {
    FoldLast(ZeroRandom, ms, RandomStep, (r: Random) => r.data, "data", SetsList,
             (v: Json) => ListField([], v));
  }

  /** A result without a `random` member carries no data. */
  lemma NoRandomNoData(ms: seq<Member>)
    requires forall i :: 0 <= i < |ms| ==> ms[i].key != "random"
    ensures UnmarshalResult(Doc(JObject(ms))).random == ZeroRandom
  {
    FoldUntouched(ZeroResult, ms, ResultStep, (r: Result) => r.random, "random");
  }
}
