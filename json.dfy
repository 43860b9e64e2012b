/** The JavaScript values that flow through the conversion: JSON plus `undefined`. */
module Json {

  /**
   * A JavaScript value as it appears in a prompt record or in the parameter object.
   * `Undefined` is kept apart from `Null` because an object literal such as
   * `{ tools: undefined }` still owns the key `tools`.
   */
  datatype Json =
    | Undefined
    | Null
    | Bool(b: bool)
    | Num(n: int)
    | Str(s: string)
    | Arr(items: seq<Json>)
    | Obj(fields: map<string, Json>)

  /** JavaScript truthiness: `undefined`, `null`, `false`, `0` and `""` are falsy, every other value is truthy. */
  predicate Truthy(j: Json) {
    match j
    case Undefined => false
    case Null => false
    case Bool(b) => b
    case Num(n) => n != 0
    case Str(s) => s != ""
    case Arr(_) => true
    case Obj(_) => true
  }

  /** The right operand of `??` replaces the left one exactly when the left one is `null` or `undefined`. */
  function Coalesce(j: Json, fallback: Json): Json
  {
    if j.Null? || j.Undefined? then fallback else j
  }
}
