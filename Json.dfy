/** JavaScript values as they arrive from the network (integers only),
    with the few operators the app applies to them: truthiness,
    property access, `in`, and `String(v)`. */
module Json {
  import opened Wrappers
  import Strings

  datatype Json =
    | JUndefined
    | JNull
    | JBool(b: bool)
    | JNum(n: int)
    | JStr(s: string)
    | JArr(items: seq<Json>)
    | JObj(fields: seq<(string, Json)>)

  /** JavaScript truthiness: `undefined`, `null`, `false`, `0` and `""` are falsy. */
  predicate Truthy(v: Json) {
    match v
    case JUndefined => false
    case JNull => false
    case JBool(b) => b
    case JNum(n) => n != 0
    case JStr(s) => s != ""
    case JArr(_) => true
    case JObj(_) => true
  }

  /** `key in v` for an object `v` (an own property named `key`). */
  predicate HasKey(v: Json, key: string) {
    v.JObj? && exists i :: 0 <= i < |v.fields| && v.fields[i].0 == key
  }

  /** The value of the last field named `key`: `JSON.parse` keeps the last
      of duplicate keys. */
  function Lookup(fields: seq<(string, Json)>, key: string): (r: Option<Json>)
    ensures r.None? <==> forall i :: 0 <= i < |fields| ==> fields[i].0 != key
    ensures r.Some? ==> exists i :: 0 <= i < |fields| && fields[i] == (key, r.value) &&
                                    forall j :: i < j < |fields| ==> fields[j].0 != key
  {
    if fields == [] then None
    else if fields[|fields| - 1].0 == key then Some(fields[|fields| - 1].1)
    else
      var init := fields[..|fields| - 1];
      assert forall i :: 0 <= i < |init| ==> init[i] == fields[i];
      Lookup(init, key)
  }

  /** `v?.key`: the property of an object, `undefined` for anything else
      or for a missing property. */
  function Get(v: Json, key: string): (r: Json)
    ensures !HasKey(v, key) ==> r == JUndefined
  {
    if v.JObj? then Lookup(v.fields, key).GetOr(JUndefined) else JUndefined
  }

  /** `String(v)`: arrays are joined with commas, with `null` and
      `undefined` elements rendered empty; objects render as
      `[object Object]`. */
  function ToJsString(v: Json): (s: string)
    ensures v.JStr? ==> s == v.s
    ensures v.JNum? ==> s == Strings.IntToString(v.n)
    ensures v.JArr? && v.items == [] ==> s == ""
  {
    match v
    case JUndefined => "undefined"
    case JNull => "null"
    case JBool(b) => if b then "true" else "false"
    case JNum(n) => Strings.IntToString(n)
    case JStr(s) => s
    case JArr(items) => JoinElements(items)
    case JObj(_) => "[object Object]"
  }

  function JoinElements(items: seq<Json>): string
    decreases items
  {
    if items == [] then ""
    else
      var head := if items[0] == JNull || items[0] == JUndefined then "" else ToJsString(items[0]);
      if |items| == 1 then head else head + "," + JoinElements(items[1..])
  }
}
