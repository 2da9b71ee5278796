/** Decoded JSON values: the wire form of every request and response.
    Python's `None` and JSON `null` are the same value here. */
module JsonValues {
  import opened Wrappers

  /** A floating-point number carried through unchanged. The model does no
      arithmetic on floats, so a float is kept as its decimal literal. */
  datatype Float = Float(literal: string)

  datatype Json =
    | JNull
    | JBool(b: bool)
    | JInt(i: int)
    | JFloat(f: Float)
    | JString(str: string)
    | JArray(items: seq<Json>)
    | JObject(fields: map<string, Json>)

  /** A JSON object: a string-keyed map. */
  type Object = map<string, Json>

  /** Python's `dict.get(key)`: a missing key and a `null` value both read
      as None. */
  function Lookup(m: Object, key: string): (r: Option<Json>)
    ensures r.Some? <==> key in m && m[key] != JNull
    ensures r.Some? ==> r.value == m[key]
  {
    if key in m && m[key] != JNull then Some(m[key]) else None
  }

  /** Python's `None if v is None else v` for a decoded value. */
  function NonNull(j: Json): (r: Option<Json>)
    ensures r.None? <==> j == JNull
    ensures r.Some? ==> r.value == j
  {
    if j == JNull then None else Some(j)
  }

  /** The JSON array of the given strings, in order. */
  function StringArray(ss: seq<string>): (r: Json)
    ensures r.JArray? && |r.items| == |ss|
    ensures forall i :: 0 <= i < |ss| ==> r.items[i] == JString(ss[i])
  {
    JArray(seq(|ss|, i requires 0 <= i < |ss| => JString(ss[i])))
  }

  /** `if cond: m[key] = value`. */
  function PutIf(m: Object, cond: bool, key: string, value: Json): (r: Object)
    ensures r.Keys == m.Keys + (if cond then {key} else {})
    ensures cond ==> r[key] == value
    ensures forall k :: k in m && k != key ==> r[k] == m[k]
    ensures !cond ==> r == m
  {
    if cond then m[key := value] else m
  }

  /** `base.update(extra)`: every key of either, and extra wins on a clash. */
  function Merge(base: Object, extra: Object): (r: Object)
    ensures r.Keys == base.Keys + extra.Keys
    ensures forall k :: k in extra ==> r[k] == extra[k]
    ensures forall k :: k in base && k !in extra ==> r[k] == base[k]
  {
    base + extra
  }
}
