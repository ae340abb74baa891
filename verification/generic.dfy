/**
  Go's untyped values: what `json.Unmarshal` produces for an `interface{}`
  target, and what `json.Marshal` writes back.

  A Go `map[string]interface{}` is kept as an association list sorted by key
  with no duplicates. That is a canonical form of the map (equal maps have
  equal lists), and it is also the order in which `json.Marshal` writes a
  map's keys, so re-encoding a decoded object is a plain walk over the list.
 */
module Generic {
  import opened Wrappers
  import opened Json

  datatype Any =
    | Nil
    | Bool(b: bool)
    | Float(x: real)
    | Str(s: string)
    | List(items: seq<Any>)
    | Dict(entries: seq<Entry>)

  datatype Entry = Entry(key: string, val: Any)

  // ---------------------------------------------------------------------------
  // Key order: strings compared character by character, a proper prefix first.
  // For code points this is the byte order of their UTF-8 encodings, which is
  // the order Go sorts map keys in.
  // ---------------------------------------------------------------------------

  predicate Less(a: string, b: string)
    decreases |a|
  {
    |b| > 0 && (|a| == 0 || a[0] < b[0] || (a[0] == b[0] && Less(a[1..], b[1..])))
  }

  lemma {:induction false} LessIrreflexive(a: string)
    ensures !Less(a, a)
    decreases |a|
  {
    if |a| > 0 {
      LessIrreflexive(a[1..]);
    }
  }

  lemma {:induction false} LessTransitive(a: string, b: string, c: string)
    requires Less(a, b) && Less(b, c)
    ensures Less(a, c)
    decreases |a|
  {
    if |a| > 0 && a[0] == b[0] && b[0] == c[0] {
      LessTransitive(a[1..], b[1..], c[1..]);
    }
  }

  lemma {:induction false} LessTotal(a: string, b: string)
    requires a != b
    ensures Less(a, b) || Less(b, a)
    decreases |a|
  {
    if |a| > 0 && |b| > 0 && a[0] == b[0] {
      assert a == [a[0]] + a[1..] && b == [b[0]] + b[1..];
      LessTotal(a[1..], b[1..]);
    }
  }

  lemma LessAsymmetric(a: string, b: string)
    requires Less(a, b)
    ensures !Less(b, a)
  {
    if Less(b, a) {
      LessTransitive(a, b, a);
      LessIrreflexive(a);
    }
  }

  // ---------------------------------------------------------------------------
  // Maps as sorted association lists
  // ---------------------------------------------------------------------------

  /** Keys strictly ascending: no key occurs twice. */
  predicate Sorted(es: seq<Entry>) {
    forall i, j :: 0 <= i < j < |es| ==> Less(es[i].key, es[j].key)
  }

  function Keys(es: seq<Entry>): set<string> {
    set i | 0 <= i < |es| :: es[i].key
  }

  /** Go's `m[k]` with the comma-ok form: the value stored under `k`, if any. */
  function Get(es: seq<Entry>, k: string): Option<Any>
    decreases |es|
  {
    if es == [] then None
    else if es[0].key == k then Some(es[0].val)
    else Get(es[1..], k)
  }

  lemma {:induction false} GetKeys(es: seq<Entry>, k: string)
    ensures Get(es, k).Some? <==> k in Keys(es)
    decreases |es|
  {
    if es != [] {
      GetKeys(es[1..], k);
      assert Keys(es) == {es[0].key} + Keys(es[1..]) by {
        forall x | x in Keys(es) ensures x in {es[0].key} + Keys(es[1..]) {
          var i :| 0 <= i < |es| && es[i].key == x;
          if i > 0 { assert es[1..][i - 1].key == x; }
        }
        forall x | x in Keys(es[1..]) ensures x in Keys(es) {
          var i :| 0 <= i < |es[1..]| && es[1..][i].key == x;
          assert es[i + 1].key == x;
        }
      }
    }
  }

  lemma KeysCons(e: Entry, es: seq<Entry>)
    ensures Keys([e] + es) == {e.key} + Keys(es)
  {
    var r := [e] + es;
    forall x | x in Keys(r) ensures x in {e.key} + Keys(es) {
      var i :| 0 <= i < |r| && r[i].key == x;
      if i > 0 { assert es[i - 1].key == x; }
    }
    forall x | x in Keys(es) ensures x in Keys(r) {
      var i :| 0 <= i < |es| && es[i].key == x;
      assert r[i + 1].key == x;
    }
    assert r[0].key == e.key;
  }

  lemma SortedTail(es: seq<Entry>)
    requires Sorted(es) && es != []
    ensures Sorted(es[1..])
    ensures forall i :: 0 < i < |es| ==> Less(es[0].key, es[i].key)
  {
    var tail := es[1..];
    forall i, j | 0 <= i < j < |tail| ensures Less(tail[i].key, tail[j].key) {
      assert tail[i] == es[i + 1] && tail[j] == es[j + 1];
    }
  }

  /** Go's `m[k] = v`: the map is updated at `k` and nowhere else. */
  function Insert(es: seq<Entry>, k: string, v: Any): (r: seq<Entry>)
    requires Sorted(es)
    ensures Sorted(r)
    ensures Keys(r) == Keys(es) + {k}
    ensures Get(r, k) == Some(v)
    ensures forall k' :: k' != k ==> Get(r, k') == Get(es, k')
    ensures forall e :: e in r ==> e in es || e == Entry(k, v)
    decreases |es|
  {
    if es == [] then
      KeysCons(Entry(k, v), []);
      [Entry(k, v)]
    else if es[0].key == k then
      InsertReplacing(es, k, v);
      [Entry(k, v)] + es[1..]
    else if Less(k, es[0].key) then
      InsertInFront(es, k, v);
      [Entry(k, v)] + es
    else
      LessTotal(k, es[0].key);
      SortedTail(es);
      var rest := Insert(es[1..], k, v);
      InsertBehind(es, k, v, rest);
      [es[0]] + rest
  }

  lemma InsertReplacing(es: seq<Entry>, k: string, v: Any)
    requires Sorted(es) && es != [] && es[0].key == k
    ensures var r := [Entry(k, v)] + es[1..];
      && Sorted(r)
      && Keys(r) == Keys(es) + {k}
      && Get(r, k) == Some(v)
      && (forall k' :: k' != k ==> Get(r, k') == Get(es, k'))
      && (forall e :: e in r ==> e in es || e == Entry(k, v))
  {
    var r := [Entry(k, v)] + es[1..];
    assert forall i :: 0 <= i < |r| ==> r[i].key == es[i].key;
    assert forall i :: 0 < i < |r| ==> r[i] == es[i];
    KeysCons(Entry(k, v), es[1..]);
    KeysCons(es[0], es[1..]);
    assert es == [es[0]] + es[1..];
  }

  lemma InsertInFront(es: seq<Entry>, k: string, v: Any)
    requires Sorted(es) && es != [] && Less(k, es[0].key)
    ensures var r := [Entry(k, v)] + es;
      && Sorted(r)
      && Keys(r) == Keys(es) + {k}
      && Get(r, k) == Some(v)
      && (forall k' :: k' != k ==> Get(r, k') == Get(es, k'))
      && (forall e :: e in r ==> e in es || e == Entry(k, v))
  {
    var r := [Entry(k, v)] + es;
    assert forall i :: 0 < i < |r| ==> r[i] == es[i - 1];
    forall i, j | 0 <= i < j < |r| ensures Less(r[i].key, r[j].key) {
      if i == 0 && j > 1 {
        LessTransitive(k, es[0].key, es[j - 1].key);
      }
    }
    KeysCons(Entry(k, v), es);
  }

  lemma InsertBehind(es: seq<Entry>, k: string, v: Any, rest: seq<Entry>)
    requires Sorted(es) && es != [] && Less(es[0].key, k)
    requires Sorted(rest)
    requires Keys(rest) == Keys(es[1..]) + {k}
    requires Get(rest, k) == Some(v)
    requires forall k' :: k' != k ==> Get(rest, k') == Get(es[1..], k')
    requires forall e :: e in rest ==> e in es[1..] || e == Entry(k, v)
    ensures var r := [es[0]] + rest;
      && Sorted(r)
      && Keys(r) == Keys(es) + {k}
      && Get(r, k) == Some(v)
      && (forall k' :: k' != k ==> Get(r, k') == Get(es, k'))
      && (forall e :: e in r ==> e in es || e == Entry(k, v))
  {
    var r := [es[0]] + rest;
    SortedTail(es);
    assert forall i :: 0 < i < |r| ==> r[i] == rest[i - 1];
    KeysCons(es[0], es[1..]);
    KeysCons(es[0], rest);
    assert es == [es[0]] + es[1..];
    forall j | 0 < j < |r| ensures Less(r[0].key, r[j].key) {
      var x := rest[j - 1].key;
      assert x in Keys(rest);
      if x != k {
        assert x in Keys(es[1..]);
        var i :| 0 <= i < |es[1..]| && es[1..][i].key == x;
        assert es[i + 1].key == x;
      }
    }
    LessIrreflexive(k);
    assert es[0].key != k;
    forall e | e in r ensures e in es || e == Entry(k, v) {
      if e != es[0] {
        assert e in rest;
      }
    }
  }

  /** Go's map decoding: insert the members one by one, in wire order. */
  function InsertAll(es: seq<Entry>, xs: seq<Entry>): (r: seq<Entry>)
    requires Sorted(es)
    ensures Sorted(r)
    ensures forall e :: e in r ==> e in es || e in xs
    decreases |xs|
  {
    if xs == [] then es
    else
      var r := InsertAll(Insert(es, xs[0].key, xs[0].val), xs[1..]);
      assert forall e :: e in xs[1..] ==> e in xs;
      r
  }

  /** The value of the last entry of `xs` under `k`. */
  function LastEntry(xs: seq<Entry>, k: string): Option<Any>
    decreases |xs|
  {
    if xs == [] then None
    else
      var rest := LastEntry(xs[1..], k);
      if rest.Some? then rest
      else if xs[0].key == k then Some(xs[0].val)
      else None
  }

  /** When the same key occurs several times in an object, the last occurrence wins. */
  lemma {:induction false} InsertAllLastWins(es: seq<Entry>, xs: seq<Entry>, k: string)
    requires Sorted(es)
    ensures LastEntry(xs, k).Some? ==> Get(InsertAll(es, xs), k) == LastEntry(xs, k)
    ensures LastEntry(xs, k).None? ==> Get(InsertAll(es, xs), k) == Get(es, k)
    decreases |xs|
  {
    if xs != [] {
      InsertAllLastWins(Insert(es, xs[0].key, xs[0].val), xs[1..], k);
    }
  }

  /** A key above the head's is inserted behind the head. */
  lemma InsertAboveHead(es: seq<Entry>, k: string, v: Any)
    requires Sorted(es) && es != [] && Less(es[0].key, k)
    ensures Sorted(es[1..])
    ensures Insert(es, k, v) == [es[0]] + Insert(es[1..], k, v)
  {
    LessIrreflexive(k);
    LessAsymmetric(es[0].key, k);
    SortedTail(es);
  }

  /** Inserting a key above every present key appends it. */
  lemma {:induction false} InsertAtEnd(es: seq<Entry>, k: string, v: Any)
    requires Sorted(es)
    requires forall i :: 0 <= i < |es| ==> Less(es[i].key, k)
    ensures Insert(es, k, v) == es + [Entry(k, v)]
    decreases |es|
  {
    if es != [] {
      var tail := es[1..];
      InsertAboveHead(es, k, v);
      assert forall i :: 0 <= i < |tail| ==> tail[i] == es[i + 1];
      InsertAtEnd(tail, k, v);
      assert [es[0]] + tail == es;
      Regroup(es[0], tail, Entry(k, v));
    }
  }

  lemma Regroup<T>(x: T, xs: seq<T>, y: T)
    ensures [x] + (xs + [y]) == ([x] + xs) + [y]
  {
  }

  lemma SplitFirst<T>(a: seq<T>, xs: seq<T>)
    requires xs != []
    ensures (a + [xs[0]]) + xs[1..] == a + xs
  {
    assert [xs[0]] + xs[1..] == xs;
  }

  /** Decoding members whose keys already ascend keeps them as they are. */
  lemma {:induction false} InsertAllAscending(es: seq<Entry>, xs: seq<Entry>)
    requires Sorted(es + xs)
    ensures Sorted(es)
    ensures InsertAll(es, xs) == es + xs
    decreases |xs|
  {
    var all := es + xs;
    assert forall i :: 0 <= i < |es| ==> all[i] == es[i];
    assert Sorted(es) by {
      forall i, j | 0 <= i < j < |es| ensures Less(es[i].key, es[j].key) {
        assert Less(all[i].key, all[j].key);
      }
    }
    if xs != [] {
      var x := xs[0];
      assert all[|es|] == x;
      forall i | 0 <= i < |es| ensures Less(es[i].key, x.key) {
        assert Less(all[i].key, all[|es|].key);
      }
      InsertAtEnd(es, x.key, x.val);
      SplitFirst(es, xs);
      InsertAllAscending(es + [x], xs[1..]);
    }
  }

  // ---------------------------------------------------------------------------
  // Decoding into and encoding from interface{}
  // ---------------------------------------------------------------------------

  /** Every map inside the value is in canonical form. */
  predicate WellFormed(a: Any) {
    match a
    case List(items) => forall i :: 0 <= i < |items| ==> WellFormed(items[i])
    case Dict(es) => Sorted(es) && forall i :: 0 <= i < |es| ==> WellFormed(es[i].val)
    case _ => true
  }

  /** Every object inside the document has strictly ascending keys. */
  predicate Canonical(j: Json) {
    match j
    case JArray(items) => forall i :: 0 <= i < |items| ==> Canonical(items[i])
    case JObject(ms) =>
      (forall i, k :: 0 <= i < k < |ms| ==> Less(ms[i].key, ms[k].key)) &&
      forall i :: 0 <= i < |ms| ==> Canonical(ms[i].value)
    case _ => true
  }

  /**
    `json.Unmarshal` into an `interface{}`: null, bool, float64, string,
    `[]interface{}` and `map[string]interface{}`.
   */
  function ToAny(j: Json): (a: Any)
    ensures WellFormed(a)
    ensures j.JArray? <==> a.List?
    ensures j.JObject? <==> a.Dict?
    ensures j.JArray? ==> |a.items| == |j.items|
    ensures j.JObject? ==> Keys(a.entries) == set i | 0 <= i < |j.members| :: j.members[i].key
  {
    match j
    case JNull => Nil
    case JBool(b) => Bool(b)
    case JNumber(x) => Float(x)
    case JString(s) => Str(s)
    case JArray(items) => List(seq(|items|, i requires 0 <= i < |items| => ToAny(items[i])))
    case JObject(ms) =>
      var xs := seq(|ms|, i requires 0 <= i < |ms| => Entry(ms[i].key, ToAny(ms[i].value)));
      var es := InsertAll([], xs);
      InsertAllKeys([], xs);
      assert forall i :: 0 <= i < |es| ==> WellFormed(es[i].val) by {
        forall i | 0 <= i < |es| ensures WellFormed(es[i].val) {
          assert es[i] in es;
          var n :| 0 <= n < |xs| && xs[n] == es[i];
        }
      }
      assert Keys(xs) == set i | 0 <= i < |ms| :: ms[i].key by {
        assert forall i :: 0 <= i < |ms| ==> xs[i].key == ms[i].key;
      }
      Dict(es)
  }

  lemma {:induction false} InsertAllKeys(es: seq<Entry>, xs: seq<Entry>)
    requires Sorted(es)
    ensures Keys(InsertAll(es, xs)) == Keys(es) + Keys(xs)
    decreases |xs|
  {
    if xs != [] {
      InsertAllKeys(Insert(es, xs[0].key, xs[0].val), xs[1..]);
      KeysCons(xs[0], xs[1..]);
      assert xs == [xs[0]] + xs[1..];
    }
  }

  /**
    Looking a key up in the map an object decodes to gives the value of the
    key's last member in the object, and nothing for a key the object lacks.
   */
  lemma ToAnyLastWins(ms: seq<Member>, k: string)
    ensures Get(ToAny(JObject(ms)).entries, k)
            == LastEntry(seq(|ms|, i requires 0 <= i < |ms| => Entry(ms[i].key, ToAny(ms[i].value))), k)
    ensures Get(ToAny(JObject(ms)).entries, k).Some? <==> exists i :: 0 <= i < |ms| && ms[i].key == k
  {
    GetKeys(ToAny(JObject(ms)).entries, k);
    assert k in Keys(ToAny(JObject(ms)).entries) <==> exists i :: 0 <= i < |ms| && ms[i].key == k;
    var xs := seq(|ms|, i requires 0 <= i < |ms| => Entry(ms[i].key, ToAny(ms[i].value)));
    InsertAllLastWins([], xs, k);
  }

  /** `json.Marshal` of an `interface{}`; a map's keys come out in sorted order. */
  function FromAny(a: Any): (j: Json)
    ensures WellFormed(a) ==> Canonical(j)
  {
    match a
    case Nil => JNull
    case Bool(b) => JBool(b)
    case Float(x) => JNumber(x)
    case Str(s) => JString(s)
    case List(items) => JArray(seq(|items|, i requires 0 <= i < |items| => FromAny(items[i])))
    case Dict(es) => JObject(seq(|es|, i requires 0 <= i < |es| => Member(es[i].key, FromAny(es[i].val))))
  }

  /** Encoding a decoded-shaped value and decoding it again gives the value back. */
  lemma {:induction false} DecodeEncode(a: Any)
    requires WellFormed(a)
    ensures ToAny(FromAny(a)) == a
  {
    match a
    case List(items) =>
      forall i | 0 <= i < |items| ensures ToAny(FromAny(items[i])) == items[i] {
        DecodeEncode(items[i]);
      }
      assert ToAny(FromAny(a)).items == items;
    case Dict(es) =>
      var ms := FromAny(a).members;
      var xs := seq(|ms|, i requires 0 <= i < |ms| => Entry(ms[i].key, ToAny(ms[i].value)));
      forall i | 0 <= i < |es| ensures xs[i] == es[i] {
        DecodeEncode(es[i].val);
      }
      assert xs == es;
      assert [] + es == es;
      InsertAllAscending([], es);
    case _ =>
  }

  /** Decoding a canonical document and encoding it again gives the document back. */
  lemma {:induction false} EncodeDecode(j: Json)
    requires Canonical(j)
    ensures FromAny(ToAny(j)) == j
  {
    match j
    case JArray(items) =>
      forall i | 0 <= i < |items| ensures FromAny(ToAny(items[i])) == items[i] {
        EncodeDecode(items[i]);
      }
      assert FromAny(ToAny(j)).items == items;
    case JObject(ms) =>
      forall i | 0 <= i < |ms| ensures FromAny(ToAny(ms[i].value)) == ms[i].value {
        EncodeDecode(ms[i].value);
      }
      EncodeDecodeObject(ms);
    case _ =>
  }

  /** The object step of `EncodeDecode`, given that every member value survives. */
  lemma EncodeDecodeObject(ms: seq<Member>)
    requires forall i, k :: 0 <= i < k < |ms| ==> Less(ms[i].key, ms[k].key)
    requires forall i :: 0 <= i < |ms| ==> FromAny(ToAny(ms[i].value)) == ms[i].value
    ensures FromAny(ToAny(JObject(ms))) == JObject(ms)
  {
    var xs := seq(|ms|, i requires 0 <= i < |ms| => Entry(ms[i].key, ToAny(ms[i].value)));
    assert [] + xs == xs;
    assert Sorted(xs) by {
      forall i, k | 0 <= i < k < |xs| ensures Less(xs[i].key, xs[k].key) {
        assert xs[i].key == ms[i].key && xs[k].key == ms[k].key;
      }
    }
    InsertAllAscending([], xs);
    assert ToAny(JObject(ms)) == Dict(xs);
    var back := FromAny(Dict(xs)).members;
    assert |back| == |ms|;
    forall i | 0 <= i < |ms| ensures back[i] == ms[i] {
      assert back[i] == Member(xs[i].key, FromAny(xs[i].val));
    }
    assert back == ms;
  }

  /**
    Decoding a document into Go values and encoding it again reproduces the
    document exactly when it is canonical: the re-encode sorts keys and drops
    duplicates, and changes nothing else.
   */
  lemma ReEncodeIdentity(j: Json)
    ensures FromAny(ToAny(j)) == j <==> Canonical(j)
  {
    if Canonical(j) {
      EncodeDecode(j);
    }
  }
}
