/** Already-parsed JSON values of a chat export, the failure-compatible
    wrappers used by every operation, and the Python conventions the source
    relies on (truthiness, `str()`, `in` on a dict, a record's lookups). */
module Values {

  datatype Option<+T> = None | Some(value: T) {
    predicate IsFailure() { None? }
    function PropagateFailure<U>(): Option<U> requires None? { None }
    function Extract(): T requires Some? { value }
    function GetOr(default: T): T { if Some? then value else default }
  }

  /** The Python exceptions the modelled code can raise, named by the
      dictionary key or the operation that raises them. */
  datatype Error =
    | MissingKey(key: string)   // KeyError
    | WrongType(key: string)    // TypeError / AttributeError on a value of the wrong kind
    | MissingAttribute(name: string)  // AttributeError: an attribute that was never set
    | IndexOutOfRange           // IndexError
    | DivisionByZero            // ZeroDivisionError

  datatype Result<+T> = Ok(value: T) | Err(error: Error) {
    predicate IsFailure() { Err? }
    function PropagateFailure<U>(): Result<U> requires Err? { Err(error) }
    function Extract(): T requires Ok? { value }
  }

  /** A JSON value as `json.load` returns it. Numbers are integers here. */
  datatype Value =
    | Null
    | Bool(b: bool)
    | Num(n: int)
    | Str(s: string)
    | Arr(items: seq<Value>)
    | Obj(fields: map<string, Value>)

  /** A JSON object, the type of every export record. */
  type Record = map<string, Value>

  /** `rec[key]`, raising KeyError when the key is absent. */
  function Need(rec: Record, key: string): (r: Result<Value>)
    ensures r.Ok? <==> key in rec
    ensures r.Ok? ==> r.value == rec[key]
    ensures r.Err? ==> r.error == MissingKey(key)
  {
    if key in rec then Ok(rec[key]) else Err(MissingKey(key))
  }

  /** `d[k]` on a plain dict, raising KeyError (shown as `shown`) when
      the key is absent. */
  function Lookup<K, V>(m: map<K, V>, k: K, shown: string): (r: Result<V>)
    ensures r.Ok? <==> k in m
    ensures r.Ok? ==> r.value == m[k]
  {
    if k in m then Ok(m[k]) else Err(MissingKey(shown))
  }

  /** A returned image name when `drawn`, else None. */
  function ImageIf(drawn: bool, name: string): Option<string> {
    if drawn then Some(name) else None
  }

  /** Python truthiness of a JSON value (`None`, `False`, `0`, `""`, `[]`
      and `{}` are false). */
  predicate Truthy(v: Value) {
    match v
    case Null => false
    case Bool(b) => b
    case Num(n) => n != 0
    case Str(s) => s != ""
    case Arr(items) => items != []
    case Obj(fields) => fields != map[]
  }

  /** Decimal representation of an integer, as Python's `str(int)`. */
  function NatToString(n: nat): (r: string)
    ensures |r| >= 1
    ensures forall i :: 0 <= i < |r| ==> '0' <= r[i] <= '9'
    decreases n
  {
    if n < 10 then [Digit(n)] else NatToString(n / 10) + [Digit(n % 10)]
  }

  function Digit(d: nat): (c: char)
    requires d < 10
    ensures '0' <= c <= '9'
  {
    ['0', '1', '2', '3', '4', '5', '6', '7', '8', '9'][d]
  }

  function IntToString(n: int): string {
    if n < 0 then "-" + NatToString(-n) else NatToString(n)
  }

  /** Python's `str(v)` for the scalar JSON values; arrays and objects have
      no rendering in this model (None). */
  function PyStr(v: Value): Option<string> {
    match v
    case Null => Some("None")
    case Bool(b) => Some(if b then "True" else "False")
    case Num(n) => Some(IntToString(n))
    case Str(s) => Some(s)
    case Arr(_) => None
    case Obj(_) => None
  }
}
