/** JavaScript object values as the serialisers build them, before `JSON.stringify`. */
module Json {
  import opened Wrappers

  /**
   * A JavaScript value: `JUndefined` is a property that is present on the object
   * literal but holds `undefined`; numbers are modelled as integers.
   */
  datatype Json =
    | JUndefined
    | JStr(str: string)
    | JNum(num: int)
    | JArray(items: seq<Json>)
    | JObject(fields: map<string, Json>)

  /** An object literal: its property names and their values. */
  type Object = map<string, Json>

  /** An optional string field as it appears on an object literal. */
  function OptStr(o: Option<string>): Json {
    match o
    case None => JUndefined
    case Some(s) => JStr(s)
  }

  /** An optional number field as it appears on an object literal. */
  function OptNum(o: Option<int>): Json {
    match o
    case None => JUndefined
    case Some(n) => JNum(n)
  }

  /** A sequence of strings as a JSON array. */
  function StrArray(s: seq<string>): (j: Json)
    ensures j.JArray? && |j.items| == |s|
    ensures forall i :: 0 <= i < |s| ==> j.items[i] == JStr(s[i])
  {
    JArray(seq(|s|, i requires 0 <= i < |s| => JStr(s[i])))
  }
}
