/**
  JSON documents as the Go `encoding/json` decoder sees them.

  Objects keep their members in wire order, duplicates included, because the
  raw bytes of a signed payload must travel untouched and because Go's struct
  decoder handles every duplicate in turn: a later one overwrites a scalar,
  slice or raw field, and is decoded on top of a struct field.
 */
module Json {
  import opened Wrappers

  datatype Json =
    | JNull
    | JBool(b: bool)
    | JNumber(x: real)
    | JString(s: string)
    | JArray(items: seq<Json>)
    | JObject(members: seq<Member>)

  datatype Member = Member(key: string, value: Json)

  /**
    A byte buffer handed to `json.Unmarshal`: either a well-formed document or
    anything else. The nil `json.RawMessage` of an absent key and an empty
    HTTP body are both `NotJson`: Unmarshal rejects them and leaves its target
    untouched, exactly as it does for malformed text.
   */
  datatype Text = Doc(doc: Json) | NotJson

  /** Go decodes an object into a struct member by member, in wire order. */
  function Fold<S>(acc: S, ms: seq<Member>, step: (S, Member) -> S): S
    decreases |ms|
  {
    if ms == [] then acc else Fold(step(acc, ms[0]), ms[1..], step)
  }

  /** The value of the last member called `key` that `accepts` takes, if any. */
  function LastAccepted(ms: seq<Member>, key: string, accepts: Json -> bool): (r: Option<Json>)
    ensures r.Some? <==> exists i :: 0 <= i < |ms| && ms[i].key == key && accepts(ms[i].value)
    ensures r.Some? ==> accepts(r.value)
    ensures r.Some? ==> exists i :: 0 <= i < |ms| && ms[i] == Member(key, r.value) &&
                           forall j :: i < j < |ms| ==> !(ms[j].key == key && accepts(ms[j].value))
    decreases |ms|
  {
    if ms == [] then None
    else
      var rest := LastAccepted(ms[1..], key, accepts);
      if rest.Some? then
        var i :| 0 <= i < |ms[1..]| && ms[1..][i] == Member(key, rest.value) &&
                 forall j :: i < j < |ms[1..]| ==> !(ms[1..][j].key == key && accepts(ms[1..][j].value));
        assert ms[i + 1] == Member(key, rest.value);
        assert forall j :: i + 1 < j < |ms| ==> ms[j] == ms[1..][j - 1];
        rest
      else if ms[0].key == key && accepts(ms[0].value) then
        assert forall j :: 0 < j < |ms| ==> ms[j] == ms[1..][j - 1];
        Some(ms[0].value)
      else
        assert forall j :: 0 < j < |ms| ==> ms[j] == ms[1..][j - 1];
        None
  }

  /** Every JSON value is accepted as the bytes of a `json.RawMessage`. */
  predicate AnyValue(v: Json) { true }

  /** Only `true` and `false` are accepted into a Go `bool` field. */
  predicate IsBool(v: Json) { v.JBool? }

  /**
    When a step sets a projection from the accepted members called `key` and
    leaves it alone otherwise, the fold ends with the last accepted value.
   */
  lemma {:induction false} FoldLast<S, P>(acc: S, ms: seq<Member>, step: (S, Member) -> S, proj: S -> P,
                                         key: string, accepts: Json -> bool, conv: Json -> P)
    requires forall s: S, m: Member :: proj(step(s, m)) == (if m.key == key && accepts(m.value) then conv(m.value) else proj(s))
    ensures proj(Fold(acc, ms, step)) == (match LastAccepted(ms, key, accepts)
                                          case Some(v) => conv(v)
                                          case None => proj(acc))
    decreases |ms|
  {
    if ms != [] {
      FoldLast(step(acc, ms[0]), ms[1..], step, proj, key, accepts, conv);
    }
  }

  /** A projection that only members called `key` touch survives a fold without them. */
  lemma {:induction false} FoldUntouched<S, P>(acc: S, ms: seq<Member>, step: (S, Member) -> S, proj: S -> P, key: string)
    requires forall s: S, m: Member :: m.key != key ==> proj(step(s, m)) == proj(s)
    requires forall i :: 0 <= i < |ms| ==> ms[i].key != key
    ensures proj(Fold(acc, ms, step)) == proj(acc)
    decreases |ms|
  {
    if ms != [] {
      FoldUntouched(step(acc, ms[0]), ms[1..], step, proj, key);
    }
  }
}
