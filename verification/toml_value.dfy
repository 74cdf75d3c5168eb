/** The shape of a parsed TOML document, as far as the loader looks at it.
    The parser itself and `type_str` are outside the model: the parse result
    and the type-name function are inputs of `EnvConfigs.Parse`. */
module TomlValues {

  /** A table is given as its entries in iteration order. */
  datatype Value =
    | String(text: string)
    | Integer(number: int)
    | Float(approx: real)
    | Boolean(truth: bool)
    | Datetime(stamp: string)
    | Array(items: seq<Value>)
    | Table(entries: seq<(string, Value)>)
}
