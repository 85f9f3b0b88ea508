/** JSON values as the route handlers receive them from `req.json()` and from
    the completion API, with the JavaScript tests the handlers apply. */
module JsonValue {
  import opened Seqs

  /** `JNull` stands for both `null` and an absent (`undefined`) field: every
      test the handlers make treats the two alike. */
  datatype Json =
    | JNull
    | JBool(b: bool)
    | JNum(n: real)
    | JStr(s: string)
    | JArr(items: seq<Json>)
    | JObj(fields: map<string, Json>)

  /** JavaScript truthiness (`if (v)`, `v || d`). */
  predicate Truthy(v: Json) {
    match v
    case JNull => false
    case JBool(b) => b
    case JNum(n) => n != 0.0
    case JStr(s) => s != ""
    case _ => true
  }

  /** Property read `v.key` on a value that is not `null`/`undefined`:
      a missing key, or a primitive or array receiver, gives `undefined`. */
  function Field(v: Json, key: string): (r: Json)
    requires !v.JNull?
    ensures !v.JObj? ==> r == JNull
  {
    match v
    case JObj(fields) => if key in fields then fields[key] else JNull
    case _ => JNull
  }

  /** `xs.filter((x) => typeof x === "string")` on a JSON array. */
  function StringItems(items: seq<Json>): (r: seq<string>)
    ensures |r| <= |items|
    ensures forall x :: x in r <==> JStr(x) in items
  {
    if items == [] then []
    else if items[0].JStr? then [items[0].s] + StringItems(items[1..])
    else StringItems(items[1..])
  }

  /** `Array.isArray(v) ? v.filter(isString) : []`, used for
      `exclude_album_ids` and for `album_ids`. */
  function StringArray(v: Json): (r: seq<string>)
    ensures !v.JArr? ==> r == []
  {
    if v.JArr? then StringItems(v.items) else []
  }

  /** The strings are kept in their original order: wrapping them back as
      JSON strings gives a subsequence of the array. */
  lemma {:induction false} StringItemsInOrder(items: seq<Json>)
    ensures IsSubsequence(Wrap(StringItems(items)), items)
  {
    if items != [] {
      StringItemsInOrder(items[1..]);
      var rest := StringItems(items[1..]);
      if items[0].JStr? {
        assert Wrap([items[0].s] + rest) == [items[0]] + Wrap(rest);
        assert Wrap([items[0].s] + rest)[1..] == Wrap(rest);
      }
    }
  }

  /** Nothing but non-strings is dropped: as many strings come out as the
      array holds. */
  lemma {:induction false} StringItemsCount(items: seq<Json>)
    ensures |StringItems(items)| == |Filter(items, (v: Json) => v.JStr?)|
  {
    if items != [] {
      StringItemsCount(items[1..]);
    }
  }

  function Wrap(ss: seq<string>): (r: seq<Json>)
    ensures |r| == |ss|
    ensures forall i :: 0 <= i < |ss| ==> r[i] == JStr(ss[i])
  {
    if ss == [] then [] else [JStr(ss[0])] + Wrap(ss[1..])
  }

}
