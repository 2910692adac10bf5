/**
 * The part of Foundation's keyed decoding and encoding containers that the
 * hand-written `Codable` conformances rely on. JSON text itself is not
 * modelled: a payload is already a tree of values, and numbers are exact.
 */
module Json {
  import opened Wrappers

  datatype Value =
    | Null
    | Bool(b: bool)
    | Number(n: real)
    | Str(s: string)
    | Array(items: seq<Value>)
    | Object(fields: map<string, Value>)

  /** The cases of Swift's `DecodingError` that keyed decoding can raise, with the offending key. */
  datatype DecodingError =
    | NotAnObject
    | KeyNotFound(key: string)
    | ValueNotFound(key: string)
    | TypeMismatch(key: string)
    | DataCorrupted(key: string)

  /** A keyed container: the members of one JSON object. */
  type Container = map<string, Value>

  /** Swift's `Int` is 64 bits wide on every platform the app targets. */
  const IntMin: int := -0x8000_0000_0000_0000
  const IntMax: int := 0x7FFF_FFFF_FFFF_FFFF

  predicate IsInt(n: int) {
    IntMin <= n <= IntMax
  }

  /** `decoder.container(keyedBy:)`: only an object has keyed members. */
  function KeyedContainer(v: Value): Result<Container, DecodingError> {
    if v.Object? then Ok(v.fields) else Err(NotAnObject)
  }

  /** `container.decode(Int.self, forKey:)`: an integral number that fits in 64 bits. */
  function DecodeInt(c: Container, key: string): Result<int, DecodingError> {
    if key !in c then Err(KeyNotFound(key))
    else match c[key]
      case Null => Err(ValueNotFound(key))
      case Number(n) => if n == n.Floor as real && IsInt(n.Floor) then Ok(n.Floor) else Err(DataCorrupted(key))
      case _ => Err(TypeMismatch(key))
  }

  /** `container.decode(Double.self, forKey:)`: any number. */
  function DecodeDouble(c: Container, key: string): Result<real, DecodingError> {
    if key !in c then Err(KeyNotFound(key))
    else match c[key]
      case Null => Err(ValueNotFound(key))
      case Number(n) => Ok(n)
      case _ => Err(TypeMismatch(key))
  }

  /** `container.decode(String.self, forKey:)`. */
  function DecodeString(c: Container, key: string): Result<string, DecodingError> {
    if key !in c then Err(KeyNotFound(key))
    else match c[key]
      case Null => Err(ValueNotFound(key))
      case Str(s) => Ok(s)
      case _ => Err(TypeMismatch(key))
  }

  /** `container.nestedContainer(keyedBy:forKey:)`: the member must itself be an object. */
  function NestedContainer(c: Container, key: string): Result<Container, DecodingError> {
    if key !in c then Err(KeyNotFound(key))
    else match c[key]
      case Object(fields) => Ok(fields)
      case _ => Err(TypeMismatch(key))
  }

  /** What `DecodeInt` accepts, stated without the error cases. */
  predicate IsIntValue(v: Value) {
    v.Number? && v.n == v.n.Floor as real && IsInt(v.n.Floor)
  }

  lemma DecodeIntAccepts(c: Container, key: string)
    ensures DecodeInt(c, key).Ok? <==> key in c && IsIntValue(c[key])
    ensures DecodeInt(c, key).Ok? ==> c[key] == Number(DecodeInt(c, key).value as real)
  {
  }

  lemma DecodeIntOfInt(c: Container, key: string, n: int)
    requires IsInt(n) && key in c && c[key] == Number(n as real)
    ensures DecodeInt(c, key) == Ok(n)
  {
  }
}
