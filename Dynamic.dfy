/**
 * Dynamic values as the generated decoders receive them (a Go `interface{}`
 * holding decoded JSON or YAML), and the conversion helpers of the `common`
 * package that those decoders call.  The helpers' code is not part of this
 * model, so they are passed in as functions the model knows nothing about.
 */
module Dynamic {

  datatype Option<+T> = None | Some(value: T)

  /** Go's `int64`. */
  newtype int64 = x: int | -0x8000_0000_0000_0000 <= x < 0x8000_0000_0000_0000

  /** The dynamic type and content of a Go `interface{}`. */
  datatype Value =
    | Nil                                // the nil interface, also what a missing map key yields
    | Bool(b: bool)
    | Int(i: int)
    | Float(r: real)
    | Str(s: string)
    | List(items: seq<Value>)            // []interface{}
    | Object(fields: map<string, Value>) // map[string]interface{}
    | Other(goType: string)              // any other dynamic type, e.g. []string or map[interface{}]interface{}

  /** Go's `m[key]` on a `map[string]interface{}`: a missing key reads as nil. */
  function Lookup(fields: map<string, Value>, key: string): Value
  {
    if key in fields then fields[key] else Nil
  }

  /**
   * The helpers common.InterfaceToString, common.InterfaceToStringList,
   * common.InterfaceToInt64 and common.InterfaceToInterfaceList.  A `None`
   * from `toInterfaceList` is the nil slice.
   */
  datatype Converters = Converters(
    toString: Value -> string,
    toStringList: Value -> seq<string>,
    toInt64: Value -> int64,
    toInterfaceList: Value -> Option<seq<Value>>)
}
