/** The dynamically typed values carried by tool parameters, tool payloads and the ticket context. */
module Values {

  datatype Option<+T> = None | Some(value: T)

  datatype Value = Null | Bool(flag: bool) | Num(number: real) | Str(text: string) | Many(items: seq<Value>)

  type Dict = map<string, Value>

  /** Python's truth value. */
  predicate Truthy(v: Value) {
    match v
    case Null => false
    case Bool(b) => b
    case Num(n) => n != 0.0
    case Str(s) => s != ""
    case Many(items) => items != []
  }

  /** `d.get(k)`: a missing key and a stored None are the same. */
  function Get(d: Dict, k: string): Value {
    if k in d then d[k] else Null
  }

  /** `d.get(k, default)`. */
  function GetOr(d: Dict, k: string, default: Value): Value {
    if k in d then d[k] else default
  }

  /** `data or {}` for an optional payload. */
  function OrEmpty(data: Option<Dict>): Dict {
    match data
    case Some(d) => d
    case None => map[]
  }

  /** `float(v)`; None stands for ValueError or TypeError. Parsing a numeral is the parameter `parse`. */
  function ToFloat(parse: string -> Option<real>, v: Value): Option<real> {
    match v
    case Num(n) => Some(n)
    case Bool(b) => Some(if b then 1.0 else 0.0)
    case Str(s) => parse(s)
    case _ => None
  }
}
