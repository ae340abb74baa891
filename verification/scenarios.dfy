/**
  Concrete exchanges, stated as facts about the façade: a good answer, a
  service error inside a 200 answer, an unreadable 503 answer, a failed post,
  a data array of the wrong element type, a non-array data member, a signed
  answer, and a re-sent object.
 */
module Scenarios {
  import opened Wrappers
  import opened Json
  import opened Generic
  import opened Wire
  import opened Core
  import opened Basic
  import opened Signed

  /** Folding over a single member is one step. */
  lemma FoldOne<S>(acc: S, m: Member, step: (S, Member) -> S)
    ensures Fold(acc, [m], step) == step(acc, m)
  {
    assert [m][1..] == [];
  }

  /** `{"result": result}`, the smallest 200 body that carries a result. */
  function Answer(result: Json): Exchange {
    Answered(StatusOK, Doc(JObject([Member("result", result)])))
  }

  /** `{"random": {"data": items}}` */
  function DataResult(items: seq<Json>): Json {
    JObject([Member("random", JObject([Member("data", JArray(items))]))])
  }

  lemma AnswerResolves(result: Json)
    ensures Resolve(Answer(result)) == (ZeroShell.(result := Doc(result)), NoError)
  {
    FoldOne(ZeroShell, Member("result", result), ShellStep);
  }

  lemma DataResultDecodes(items: seq<Json>)
    ensures UnmarshalResult(Doc(DataResult(items))).random.data
            == seq(|items|, i requires 0 <= i < |items| => ToAny(items[i]))
  {
    var inner := JObject([Member("data", JArray(items))]);
    FoldOne(ZeroRandom, Member("data", JArray(items)), RandomStep);
    FoldOne(ZeroResult, Member("random", inner), ResultStep);
  }

  /** The service's numbers 1, 5 and 3 come back as the ints 1, 5 and 3. */
  lemma IntegersArrive(c: Client)
    ensures GenerateIntegers(c, 3, 1, 9, false, Replay(Answer(DataResult([JNumber(1.0), JNumber(5.0), JNumber(3.0)]))))
            == Returned([1, 5, 3], NoError)
  {
    var items := [JNumber(1.0), JNumber(5.0), JNumber(3.0)];
    AnswerResolves(DataResult(items));
    DataResultDecodes(items);
    var data := UnmarshalResult(Doc(DataResult(items))).random.data;
    assert |data| == 3 && data[0] == Float(1.0) && data[1] == Float(5.0) && data[2] == Float(3.0);
    var r := GenerateIntegers(c, 3, 1, 9, false, Replay(Answer(DataResult(items))));
    assert r.Returned?;
    assert r.value == [1, 5, 3];
  }

  /** A string where a number belongs makes the integer loop panic. */
  lemma WrongElementTypePanics(c: Client)
    ensures GenerateIntegers(c, 1, 1, 9, false, Replay(Answer(DataResult([JString("7")])))) == Panicked
  {
    AnswerResolves(DataResult([JString("7")]));
    DataResultDecodes([JString("7")]);
    assert UnmarshalResult(Doc(DataResult([JString("7")]))).random.data == [Str("7")];
  }

  /** A `data` member that is a string, not an array, gives an empty slice and no error. */
  lemma NonArrayDataIsEmpty(c: Client)
    ensures GenerateStrings(c, 1, 2, "ab", false,
                            Replay(Answer(JObject([Member("random", JObject([Member("data", JString("ab"))]))]))))
            == Returned([], NoError)
  {
    var random := JObject([Member("data", JString("ab"))]);
    var result := JObject([Member("random", random)]);
    AnswerResolves(result);
    RandomDataFromLastArray(random.members);
    FoldOne(ZeroResult, Member("random", random), ResultStep);
    assert UnmarshalResult(Doc(result)).random.data == [];
  }

  /** A 200 answer carrying an error record yields an empty slice and that error. */
  lemma ServiceErrorPassesThrough(c: Client)
    ensures GenerateIntegers(c, 3, 1, 9, false, Replay(Answered(StatusOK, Doc(JObject([
              Member("error", JObject([Member("code", JNumber(400.0)), Member("message", JString("Invalid API key"))]))])))))
            == Returned([], Error(400, "Invalid API key", []))
  {
    var ems := [Member("code", JNumber(400.0)), Member("message", JString("Invalid API key"))];
    assert Fold(NoError, ems, ErrorStep) == Error(400, "Invalid API key", []) by {
      assert ems[1..] == [ems[1]];
      FoldOne(Error(400, "", []), ems[1], ErrorStep);
    }
    FoldOne(ZeroShell, Member("error", JObject(ems)), ShellStep);
  }

  /**
    Two `error` members merge field by field: the second sets the code and
    keeps the first one's message.
   */
  lemma DuplicateErrorsMerge(c: Client)
    ensures GenerateIntegers(c, 3, 1, 9, false, Replay(Answered(StatusOK, Doc(JObject([
              Member("error", JObject([Member("code", JNumber(1.0)), Member("message", JString("a"))])),
              Member("error", JObject([Member("code", JNumber(2.0))]))])))))
            == Returned([], Error(2, "a", []))
  {
    var first := [Member("code", JNumber(1.0)), Member("message", JString("a"))];
    var second := [Member("code", JNumber(2.0))];
    assert Fold(NoError, first, ErrorStep) == Error(1, "a", []) by {
      assert first[1..] == [first[1]];
      FoldOne(Error(1, "", []), first[1], ErrorStep);
    }
    FoldOne(Error(1, "a", []), second[0], ErrorStep);
    var ms := [Member("error", JObject(first)), Member("error", JObject(second))];
    assert Fold(ZeroShell, ms, ShellStep) == ZeroShell.(error := Error(2, "a", [])) by {
      assert ms[1..] == [ms[1]];
      FoldOne(ZeroShell.(error := Error(1, "a", [])), ms[1], ShellStep);
    }
  }

  /** A 503 answer whose body is not JSON counts as success with no data. */
  lemma UnreadableUnavailable(c: Client)
    ensures GenerateIntegers(c, 3, 1, 9, false, Replay(Answered(503, NotJson))) == Returned([], NoError)
  {
  }

  /** A post that fails yields the synthetic client error with the transport's reason. */
  lemma PostFailureIsClientError(c: Client, reason: string)
    requires reason != ""
    ensures GenerateIntegers(c, 3, 1, 9, false, Replay(PostFailed(reason)))
            == Returned([], Error(ClientErrorCode, reason, []))
  {
  }

  /**
    A signed answer `{"random": {"data": ["ab"], "serialNumber": 7}, "signature": "s"}`
    gives back the random object as raw bytes, its decoded data and serial
    number, and the signature.
   */
  lemma SignedStringsArrive(c: Client)
    ensures
      var random := JObject([Member("data", JArray([JString("ab")])), Member("serialNumber", JNumber(7.0))]);
      GenerateSignedStrings(c, 1, 2, "ab", false, Replay(Answer(JObject([Member("random", random),
                                                                        Member("signature", JString("s"))]))))
      == Returned(SignedData(["ab"], Doc(random), "", 7, "s"), NoError)
  {
    var random := JObject([Member("data", JArray([JString("ab")])), Member("serialNumber", JNumber(7.0))]);
    var sms := [Member("random", random), Member("signature", JString("s"))];
    AnswerResolves(JObject(sms));
    assert UnmarshalSigned(Doc(JObject(sms))) == ZeroSignedResult.(raw := Doc(random), signature := "s") by {
      assert sms[1..] == [sms[1]];
      FoldOne(ZeroSignedResult.(raw := Doc(random)), sms[1], SignedStep);
    }
    var rms := random.members;
    assert (7.0).Floor == 7;
    assert UnmarshalRandom(Doc(random)) == ZeroRandom.(data := [Str("ab")], serialNumber := 7) by {
      assert rms[1..] == [rms[1]];
      FoldOne(ZeroRandom.(data := [Str("ab")]), rms[1], RandomStep);
    }
    var r := GenerateSignedStrings(c, 1, 2, "ab", false, Replay(Answer(JObject(sms))));
    assert r.Returned?;
    assert r.value.data == ["ab"];
  }

  /** An object whose keys are out of order is re-sent with its keys sorted. */
  lemma ResentObjectIsSorted()
    ensures ResentPayload(Doc(JObject([Member("n", JNumber(1.0)), Member("data", JNull)])))
            == JObject([Member("data", JNull), Member("n", JNumber(1.0))])
  {
    var ms := [Member("n", JNumber(1.0)), Member("data", JNull)];
    var xs := [Entry("n", Float(1.0)), Entry("data", Nil)];
    var sorted := [Entry("data", Nil), Entry("n", Float(1.0))];
    assert seq(|ms|, i requires 0 <= i < |ms| => Entry(ms[i].key, ToAny(ms[i].value))) == xs;
    assert Less("data", "n");
    assert Insert([], "n", Float(1.0)) == [xs[0]];
    assert Insert([xs[0]], "data", Nil) == sorted;
    assert InsertAll([], xs) == sorted by {
      assert xs[1..] == [xs[1]];
      assert InsertAll([], xs) == InsertAll([xs[0]], [xs[1]]);
      assert [xs[1]][1..] == [];
      assert InsertAll([xs[0]], [xs[1]]) == InsertAll(sorted, []);
    }
    assert ToAny(JObject(ms)) == Dict(sorted);
  }
}
