/** The Python values that flow through conditions, argument tuples and records. */
module Values {
  import opened Text

  /** None, a bool, an int or a str; other Python objects are not distinguished by the model. */
  datatype Value = Null | Bool(b: bool) | Int(i: int) | Str(s: string)

  /** `str(v)`, as used by the f-strings that build LIKE patterns. */
  function Show(v: Value): string
  {
    match v
    case Null => "None"
    case Bool(b) => if b then "True" else "False"
    case Int(i) => IntToString(i)
    case Str(s) => s
  }

  /** A record (a dataclass instance, entity or named tuple) seen as its attribute values. */
  type Record = map<string, Value>
}
