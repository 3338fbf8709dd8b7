/**
  The JavaScript values that the application keeps in its persistent store and
  passes between the renderer and the main process, with JavaScript's notion of
  truthiness. Numbers are integers: every number the modelled code stores
  (timestamps in milliseconds, counts) is whole.
*/
module Values {

  import opened Wrappers

  datatype Value =
    | Null
    | Bool(b: bool)
    | Num(n: int)
    | Str(s: string)
    | List(items: seq<Value>)
    | Record(fields: map<string, Value>)

  /** JavaScript truthiness: `null`, `false`, `0` and `''` are falsy, arrays and objects never are. */
  predicate Truthy(v: Value)
  {
    match v
    case Null => false
    case Bool(b) => b
    case Num(n) => n != 0
    case Str(s) => s != ""
    case List(_) => true
    case Record(_) => true
  }

  /** An optional string (an absent property, or `undefined`) used with `||`: truthy iff present and non-empty. */
  predicate Present(o: Option<string>)
  {
    o.Some? && o.value != ""
  }

  /** An optional number used with `||`: truthy iff present and non-zero. */
  predicate PresentNum(o: Option<int>)
  {
    o.Some? && o.value != 0
  }
}
