/** Optional values: `None` stands for the JavaScript `null` a function returns on failure. */
module Wrappers {
  datatype Option<+T> = None | Some(value: T)
}

/**
 * Already-parsed JSON (or YAML) values, and the few pieces of JavaScript
 * semantics the program applies to them: truthiness, `typeof x === 'object'`
 * and reading a named property, which may give `undefined`.
 */
module JsValues {

  /** A value produced by `JSON.parse` or `YAML.parse`. Numbers are reals. */
  datatype Json =
    | JNull
    | JBool(b: bool)
    | JNum(r: real)
    | JStr(s: string)
    | JArr(elems: seq<Json>)
    | JObj(fields: map<string, Json>)

  /** A JavaScript value as the program sees it: a JSON value or `undefined`. */
  datatype JsValue = Undefined | Defined(json: Json)

  /** JavaScript truthiness: `undefined`, `null`, `false`, `0` and `""` are falsy. */
  predicate Truthy(v: JsValue) {
    match v
    case Undefined => false
    case Defined(j) =>
      match j
      case JNull => false
      case JBool(b) => b
      case JNum(r) => r != 0.0
      case JStr(s) => s != ""
      case JArr(_) => true
      case JObj(_) => true
  }

  /** `v !== null && typeof v === 'object'`: arrays pass this test too. */
  predicate IsObject(v: JsValue) {
    v.Defined? && (v.json.JArr? || v.json.JObj?)
  }

  /**
   * `v[key]` for a named property of a non-null value. Only the property
   * names the program reads are meant here: none of them is an array index
   * or a member every object inherits, so an absent key reads as `undefined`,
   * and `length` is the only property arrays and strings add.
   */
  function Prop(v: Json, key: string): (r: JsValue)
    requires !v.JNull?
    ensures v.JObj? ==> (r.Defined? <==> key in v.fields)
    ensures v.JObj? && key in v.fields ==> r == Defined(v.fields[key])
    ensures (v.JNum? || v.JBool?) ==> r == Undefined
  {
    match v
    case JObj(m) => if key in m then Defined(m[key]) else Undefined
    case JArr(xs) => if key == "length" then Defined(JNum(|xs| as real)) else Undefined
    case JStr(s) => if key == "length" then Defined(JNum(|s| as real)) else Undefined
    case _ => Undefined
  }
}
