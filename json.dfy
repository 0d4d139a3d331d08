/**
 * The dynamically typed values that level files carry in their fields, as the
 * JSON library represents them, and the field bag handed to every parser.
 */
module Json {
  import opened Wrappers
  import opened Numeric

  /** A JSON number: an integer (signed or unsigned 64-bit in the library) or a float. */
  datatype Number = Int(i: int) | Float(f: real)

  datatype Value =
    | Null
    | Bool(b: bool)
    | Num(n: Number)
    | Str(s: string)
    | Array(items: seq<Value>)
    | Object(members: map<string, Value>)

  /**
   * A map entity's custom fields: field identifier to an optional value
   * (a field whose value is JSON null is `None`).
   */
  type FieldBag = map<string, Option<Value>>

  /** `Number::as_i64`: the number as a signed 64-bit integer, when it is one. */
  function AsI64(n: Number): (r: Option<int>)
    ensures r.Some? <==> n.Int? && InI64(n.i)
    ensures r.Some? ==> r.value == n.i
  {
    match n
    case Int(i) => if InI64(i) then Some(i) else None
    case Float(_) => None
  }
}
