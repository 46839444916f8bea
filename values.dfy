/**
 * The dynamic values that a job record holds. Python dictionaries in the
 * history layer map string keys to values of any type; `Value` is the part of
 * Python's value domain that job records use, and `Truthy` is Python's notion
 * of truth for it, which decides the `x or default` idiom.
 */
module Values {

  /**
   * An instant read from the clock. It is opaque: `ticks` only tells one
   * reading from another and carries no unit, zone or order.
   */
  datatype Timestamp = Timestamp(ticks: int)

  /** A Python value as stored in a job dictionary (a float is modelled by a real). */
  datatype Value =
    | VNone
    | VBool(b: bool)
    | VInt(i: int)
    | VFloat(x: real)
    | VStr(s: string)
    | VTime(t: Timestamp)
    | VList(items: seq<Value>)
    | VDict(entries: map<string, Value>)

  /** A Python dictionary with string keys. */
  type Dict = map<string, Value>

  /** The empty list `[]` and the empty dictionary `{}`. */
  const EmptyList: Value := VList([])
  const EmptyDict: Value := VDict(map[])

  /** Python truthiness: None, False, zero, and empty strings and containers are false; a datetime is always true. */
  function Truthy(v: Value): (b: bool)
    // the falsy values are exactly None, False, 0, 0.0, '', [] and {}
    ensures !b <==> v in {VNone, VBool(false), VInt(0), VFloat(0.0), VStr(""), EmptyList, EmptyDict}
  {
    match v
    case VNone => false
    case VBool(b) => b
    case VInt(i) => i != 0
    case VFloat(x) => x != 0.0
    case VStr(s) => s != ""
    case VTime(_) => true
    case VList(items) => items != []
    case VDict(entries) => entries != map[]
  }

  /** Python's `v or default`: one of the two operands, the first when it is truthy. */
  function Or(v: Value, default: Value): (r: Value)
    ensures r == v || r == default
    ensures Truthy(r) <==> Truthy(v) || Truthy(default)
    ensures Truthy(v) ==> r == v
    ensures !Truthy(v) ==> r == default
  {
    if Truthy(v) then v else default
  }

  datatype Option<+T> = None | Some(value: T)

  /** The Python exceptions the modelled code can raise. */
  datatype PyError =
    | KeyError(key: string)
    | NameError(name: string)

  datatype Result<+T> = Ok(value: T) | Err(error: PyError)
}
