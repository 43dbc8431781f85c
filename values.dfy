/** JavaScript values as the document builder sees them, with JavaScript's
    truthiness and the `a || b` operator that the builder uses for its
    fallbacks (`metadata?.type || null`, `metadata?.tags || []`). */
module Values {

  /** An unsigned byte, the element type of a Uint8Array. */
  newtype byte = x: int | 0 <= x < 256

  datatype Option<+T> = None | Some(value: T)

  /** A value, or the message of the exception that was thrown instead. */
  datatype Result<+T> = Ok(value: T) | Err(message: string)

  /** A JavaScript value. Numbers are integers here; NaN and -0 are not modelled. */
  datatype Value =
    | Undefined
    | Null
    | Bool(b: bool)
    | Num(n: int)
    | Str(s: string)
    | Arr(items: seq<Value>)
    | Obj(fields: map<string, Value>)

  /** JavaScript truthiness: undefined, null, false, 0 and "" are falsy; every array
      and every object (even an empty one) is truthy. */
  predicate Truthy(v: Value) {
    match v
    case Undefined => false
    case Null => false
    case Bool(b) => b
    case Num(n) => n != 0
    case Str(s) => s != ""
    case Arr(_) => true
    case Obj(_) => true
  }

  /** `a || b`: the left operand when it is truthy, the right one otherwise. */
  function OrElse(a: Value, b: Value): (r: Value)
    ensures Truthy(a) ==> r == a
    ensures !Truthy(a) ==> r == b
    ensures Truthy(r) <==> Truthy(a) || Truthy(b)
  {
    if Truthy(a) then a else b
  }

  /** `v?.key`: the property of an object, undefined for a missing key and for
      anything that is not an object (null and undefined included). */
  function Get(v: Value, key: string): (r: Value)
    ensures r != Undefined ==> v.Obj? && key in v.fields && r == v.fields[key]
    ensures v.Obj? && key in v.fields ==> r == v.fields[key]
  {
    if v.Obj? && key in v.fields then v.fields[key] else Undefined
  }

  /** The empty object literal `{}`. */
  const EmptyObject: Value := Obj(map[])

  /** The empty array literal `[]`. */
  const EmptyArray: Value := Arr([])

  /** A string option is truthy when present and non-empty, as `filePath ? … : …` tests it. */
  predicate Present(s: Option<string>) {
    s.Some? && s.value != ""
  }
}
