/** The nested values that travel through EXIF extraction, DynamoDB and the
    log processors. A dict keeps its insertion order, as Python's does. */
module PyValues {
  newtype byte = x: int | 0 <= x < 256

  type Bytes = seq<byte>

  datatype Entry = Entry(key: string, value: Value)

  /** A float is its exact value; `Decimal` is what the DynamoDB resource
      hands back for every number. `Rational` stands for anything exposing
      numerator and denominator, `Opaque` for any other Python object. */
  datatype Value =
    | Null
    | Bool(flag: bool)
    | Int(whole: int)
    | Float(x: real)
    | Decimal(x: real)
    | Str(text: string)
    | Blob(bytes: Bytes)
    | Rational(numerator: real, denominator: real)
    | List(items: seq<Value>)
    | Tuple(items: seq<Value>)
    | Dict(entries: seq<Entry>)
    | Opaque
}
