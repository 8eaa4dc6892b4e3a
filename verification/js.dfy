/** JSON values as the Graph API helpers see them, with the JavaScript
    `typeof`/truthiness tests the source applies to them. */
module Js {

  datatype Json =
    | Null
    | Bool(b: bool)
    | Num(n: int)
    | Str(s: string)
    | Arr(items: seq<Json>)
    | Object(fields: map<string, Json>)

  /** JavaScript truthiness. */
  predicate Truthy(j: Json) {
    match j
    case Null => false
    case Bool(b) => b
    case Num(n) => n != 0
    case Str(s) => s != ""
    case Arr(_) => true
    case Object(_) => true
  }

  /** `typeof j === 'object'` (arrays and `null` included). */
  predicate IsObjectType(j: Json) {
    j.Null? || j.Arr? || j.Object?
  }

  /** `key in j && j[key]` for an object. */
  predicate HasTruthyKey(j: Json, key: string) {
    j.Object? && key in j.fields && Truthy(j.fields[key])
  }
}
