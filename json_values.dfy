/** Untyped JavaScript values, for the places where the front end inspects `any` data. */
module JsonValues {

  datatype Json =
    | JNull
    | JBool(b: bool)
    | JNum(n: real)
    | JStr(s: string)
    | JArr(items: seq<Json>)
    | JObj(fields: map<string, Json>)

  /** JavaScript truthiness of a value. */
  predicate Truthy(v: Json) {
    match v
    case JNull => false
    case JBool(b) => b
    case JNum(n) => n != 0.0
    case JStr(s) => s != ""
    case JArr(_) => true
    case JObj(_) => true
  }

  /** `typeof v === 'object'` (which is also true of arrays and of `null`). */
  predicate TypeofObject(v: Json) {
    v.JNull? || v.JArr? || v.JObj?
  }
}
