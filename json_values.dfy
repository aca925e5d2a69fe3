/**
 * JSON-like values as JavaScript holds them after `JSON.parse` and schema
 * validation, with `undefined` as a value of its own: an object can hold a
 * key whose value is `undefined`.
 */
module JsonValues {
  import opened Decimals
  import opened Assoc

  datatype Json =
    | JUndefined
    | JNull
    | JBool(b: bool)
    | JNum(n: Decimal)
    | JStr(s: string)
    | JArr(items: seq<Json>)
    | JObj(fields: Entries<Json>)

  /** `obj[key]`: the stored value, or `undefined` when the key is absent. */
  function Field(fields: Entries<Json>, key: string): (v: Json)
    ensures !HasKey(fields, key) ==> v == JUndefined
  {
    match Get(fields, key)
    case Some(v) => v
    case None => JUndefined
  }

  /** `v?.key`: the field of an object, `undefined` for anything else. */
  function Member(v: Json, key: string): (m: Json)
    ensures !v.JObj? ==> m == JUndefined
  {
    if v.JObj? then Field(v.fields, key) else JUndefined
  }

  /** JavaScript truthiness. */
  predicate Truthy(v: Json)
  {
    match v
    case JUndefined => false
    case JNull => false
    case JBool(b) => b
    case JNum(n) => n.mantissa != 0
    case JStr(s) => s != ""
    case JArr(_) => true
    case JObj(_) => true
  }

  /** A plain object: `typeof v === "object" && v !== null && !Array.isArray(v)`. */
  predicate IsObject(v: Json)
  {
    v.JObj?
  }

  predicate AllStrings(items: seq<Json>)
  {
    forall i :: 0 <= i < |items| ==> items[i].JStr?
  }

  function Strings(items: seq<Json>): (r: seq<string>)
    requires AllStrings(items)
    ensures |r| == |items| && forall i :: 0 <= i < |items| ==> items[i] == JStr(r[i])
  {
    if |items| == 0 then [] else Strings(items[..|items| - 1]) + [items[|items| - 1].s]
  }
}
