/** Values produced by `JSON.parse`, and the few JavaScript operations the routes
    and components apply to them: property reads, truthiness, `typeof` tests and
    `||` defaults. */
module Json {
  import opened Wrappers

  /** A parsed JSON value. JSON has no NaN or infinity, so numbers are reals;
      duplicate object keys were already resolved by the parser (last one wins). */
  datatype Json =
    | JNull
    | JBool(b: bool)
    | JNum(n: real)
    | JStr(s: string)
    | JArr(elems: seq<Json>)
    | JObj(fields: map<string, Json>)

  /** JavaScript truthiness of a value that is present. */
  predicate TruthyValue(j: Json)
  {
    match j
    case JNull => false
    case JBool(b) => b
    case JNum(n) => n != 0.0
    case JStr(s) => s != ""
    case JArr(_) => true
    case JObj(_) => true
  }

  /** JavaScript truthiness of a property read; `None` is `undefined`. */
  predicate Truthy(v: Option<Json>)
  {
    v.Some? && TruthyValue(v.value)
  }

  /** `v.key` on a value that is not `null`: an object's own field. None of the
      keys this system reads is a property of strings, numbers, booleans or arrays. */
  function Get(v: Json, key: string): Option<Json>
  {
    if v.JObj? && key in v.fields then Some(v.fields[key]) else None
  }

  /** `v?.key`: `undefined` when `v` is `undefined` or `null`. */
  function GetOpt(v: Option<Json>, key: string): Option<Json>
  {
    if v.None? || v.value == JNull then None else Get(v.value, key)
  }

  /** `typeof v === 'string'`. */
  predicate IsString(v: Option<Json>)
  {
    v.Some? && v.value.JStr?
  }

  /** `typeof v === 'boolean'`. */
  predicate IsBool(v: Option<Json>)
  {
    v.Some? && v.value.JBool?
  }

  /** `Array.isArray(v)`. */
  predicate IsArray(v: Option<Json>)
  {
    v.Some? && v.value.JArr?
  }

  /** `v || fallback`, for a fallback that is a present value. */
  function Or(v: Option<Json>, fallback: Json): (r: Json)
    ensures Truthy(v) ==> r == v.value
    ensures !Truthy(v) ==> r == fallback
  {
    if Truthy(v) then v.value else fallback
  }
}
