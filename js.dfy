/** JavaScript values as the viewer receives them from the KML-to-GeoJSON
    converter, and the few JavaScript operators the core applies to them:
    truthiness (`!v`), `typeof`, `Array.isArray` and property reads. */
module Js {

  /** `None` stands for "nothing": a feature that failed validation, or a
      computation that threw. */
  datatype Option<T> = None | Some(value: T)

  /** A JavaScript value of the shapes a parsed GeoJSON document can hold.
      Numbers are reals: NaN, the infinities and rounding are not modelled. */
  datatype JsValue =
    | JUndefined
    | JNull
    | JBool(b: bool)
    | JNum(n: real)
    | JStr(s: string)
    | JArr(elems: seq<JsValue>)
    | JObj(fields: map<string, JsValue>)

  /** `!!v`: everything is truthy except undefined, null, false, 0 and "". */
  predicate Truthy(v: JsValue)
  {
    match v
    case JUndefined => false
    case JNull => false
    case JBool(b) => b
    case JNum(n) => n != 0.0
    case JStr(s) => s != ""
    case JArr(_) => true
    case JObj(_) => true
  }

  /** `typeof v`; note that null and arrays are both "object". */
  function TypeOf(v: JsValue): string
  {
    match v
    case JUndefined => "undefined"
    case JNull => "object"
    case JBool(_) => "boolean"
    case JNum(_) => "number"
    case JStr(_) => "string"
    case JArr(_) => "object"
    case JObj(_) => "object"
  }

  /** `Array.isArray(v)`. */
  predicate IsArray(v: JsValue)
  {
    v.JArr?
  }

  /** `v.key` for the keys the core reads ("features", "geometry", "type",
      "coordinates"): none of them is inherited from the prototype of an
      object, an array or a string, so only an own property of an object is
      found and every other read gives undefined. */
  function Prop(v: JsValue, key: string): JsValue
  {
    if v.JObj? && key in v.fields then v.fields[key] else JUndefined
  }
}
