/**
 * The JSON values a parsed package.json is made of, and JavaScript's notion of
 * truthiness for them (bin.js tests `packageJson.eslintConfig` in an `if`).
 */
module Json {

  /** A JSON value. Numbers are JavaScript doubles restricted to what JSON can
      spell, so NaN never occurs; they are modelled as reals. Object key order
      is not modelled: an object is a map from its keys to its members. */
  datatype Json =
    | Null
    | Bool(b: bool)
    | Num(n: real)
    | Str(s: string)
    | Arr(items: seq<Json>)
    | Obj(fields: map<string, Json>)

  datatype Option<T> = None | Some(value: T)

  /** JavaScript truthiness: null, false, 0 and "" are falsy; every array and
      object, even an empty one, is truthy. */
  function Truthy(v: Json): (t: bool)
    ensures t <==> v != Null && v != Bool(false) && v != Num(0.0) && v != Str("")
  {
    match v
    case Null => false
    case Bool(b) => b
    case Num(n) => n != 0.0
    case Str(s) => s != ""
    case Arr(_) => true
    case Obj(_) => true
  }
}
