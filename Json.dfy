/** An abstract JSON value: what `JSONSerialization.jsonObject(with:)` yields
    once the bytes have been parsed. Byte-level parsing is not modelled; a
    reply body is given as `Result<Json, string>`, the failure carrying the
    description of the serializer's error. */
module Json {
  import opened Wrappers

  datatype Json =
    | JNull
    | JBool(b: bool)
    | JNumber(text: string)
    | JString(s: string)
    | JArray(items: seq<Json>)
    | JObject(fields: map<string, Json>)

  /** `value as? [String: Any]`: the dictionary, when the value is an object. */
  function AsObject(j: Json): (r: Option<map<string, Json>>)
    ensures r.Some? <==> j.JObject?
    ensures r.Some? ==> j == JObject(r.value)
  {
    if j.JObject? then Some(j.fields) else None
  }

  /** `dict[key] as? String`: the string stored under `key`, if any. */
  function StringField(fields: map<string, Json>, key: string): (r: Option<string>)
    ensures r.Some? <==> key in fields && fields[key].JString?
    ensures r.Some? ==> fields[key] == JString(r.value)
  {
    if key in fields && fields[key].JString? then Some(fields[key].s) else None
  }

  /** `dict[key] as? [String: Any]`: the object stored under `key`, if any. */
  function ObjectField(fields: map<string, Json>, key: string): (r: Option<map<string, Json>>)
    ensures r.Some? <==> key in fields && fields[key].JObject?
    ensures r.Some? ==> fields[key] == JObject(r.value)
  {
    if key in fields && fields[key].JObject? then Some(fields[key].fields) else None
  }

  /** Every element of `items` is an object. */
  predicate AllObjects(items: seq<Json>) {
    forall i :: 0 <= i < |items| ==> items[i].JObject?
  }

  /** Every element of `items` is a string. */
  predicate AllStrings(items: seq<Json>) {
    forall i :: 0 <= i < |items| ==> items[i].JString?
  }

  /** The strings of a JSON array whose elements are all strings, in order. */
  function Strings(items: seq<Json>): (r: seq<string>)
    requires AllStrings(items)
    ensures |r| == |items|
    ensures forall i :: 0 <= i < |items| ==> items[i] == JString(r[i])
  {
    seq(|items|, i requires 0 <= i < |items| => items[i].s)
  }

  /** A JSON array of strings, the inverse of `Strings`. */
  function StringArray(ss: seq<string>): (r: Json)
    ensures r.JArray? && AllStrings(r.items) && Strings(r.items) == ss
  {
    JArray(seq(|ss|, i requires 0 <= i < |ss| => JString(ss[i])))
  }
}
