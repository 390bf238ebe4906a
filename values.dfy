/** Python runtime values as the core sees them: dictionaries of keyword
    arguments and results, the exceptions the core can raise, and the usual
    Option and Result wrappers. */
module PyValues {

  /** A Python value, as far as the core inspects it. Dictionaries are maps:
      the insertion order of a Python dict is not kept. */
  datatype Value =
    | VNone
    | VBool(b: bool)
    | VInt(i: int)
    | VReal(r: real)
    | VStr(s: string)
    | VList(items: seq<Value>)
    | VDict(fields: Dict)

  /** A Python `Dict[str, Any]`. */
  type Dict = map<string, Value>

  /** The Python exceptions the modelled code raises or lets through. */
  datatype Error = AttributeError | TypeError | ValueError

  datatype Option<+T> = None | Some(value: T)

  datatype Result<+T> = Ok(value: T) | Err(error: Error)

  /** `d.get(key, default)` */
  function Get(d: Dict, key: string, default: Value): Value
  {
    if key in d then d[key] else default
  }
}
