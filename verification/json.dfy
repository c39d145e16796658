/** The loosely typed payloads the system passes around: parsed JSON in the
    Node server and dicts in the Python client. */
module Json {
  import opened Basics
  import Decimal

  datatype Value =
    | Null
    | Bool(b: bool)
    | Num(n: int)
    | Str(s: string)
    | Arr(items: seq<Value>)
    | Obj(fields: map<string, Value>)

  /** A JSON object or Python dict: keys to loose values. */
  type Dict = map<string, Value>

  /** A token payload as returned by a provider. */
  type TokenMap = Dict

  /** `m.key` in JavaScript and `m.get(key)` in Python: a missing key reads
      as null / None. */
  function Get(m: map<string, Value>, key: string): Value
  {
    if key in m then m[key] else Null
  }

  /** JavaScript truthiness: objects and arrays are always truthy. */
  predicate JsTruthy(v: Value)
  {
    match v
    case Null => false
    case Bool(b) => b
    case Num(n) => n != 0
    case Str(s) => s != ""
    case Arr(_) => true
    case Obj(_) => true
  }

  /** Python truthiness: empty lists and dicts are falsy too. */
  predicate PyTruthy(v: Value)
  {
    match v
    case Null => false
    case Bool(b) => b
    case Num(n) => n != 0
    case Str(s) => s != ""
    case Arr(items) => items != []
    case Obj(fields) => fields != map[]
  }

  /** JavaScript `a || b`. */
  function JsOr(a: Value, b: Value): Value
  {
    if JsTruthy(a) then a else b
  }

  /** A lifetime given as `expires_in`, read as whole seconds: JavaScript's
      `Number(v)` and Python's `int(v)` agree on the values covered here
      (integers, booleans, digit strings with an optional sign); anything
      else is not a number. */
  function Seconds(v: Value): Option<int>
  {
    match v
    case Num(n) => Some(n)
    case Bool(b) => Some(if b then 1 else 0)
    case Str(s) => Decimal.ParseInt(s)
    case _ => None
  }

  /** A string `expires_in` spelled the way integers are written, with no
      `+` and no superfluous leading zero, reads as exactly the integer whose
      spelling it is, in both directions. */
  lemma SecondsOfCanonicalText(s: string, n: int)
    requires Decimal.Canonical(s)
    ensures Seconds(Str(s)) == Some(n) <==> s == Decimal.IntToString(n)
  {
    Decimal.ParseIntCanonical(s);
    if s == Decimal.IntToString(n) {
      Decimal.ParseIntToString(n);
    }
  }

  /** Python's `str(v)` for scalars; containers get a fixed marker. */
  function PyStr(v: Value): string
  {
    match v
    case Null => "None"
    case Bool(b) => if b then "True" else "False"
    case Num(n) => Decimal.IntToString(n)
    case Str(s) => s
    case Arr(_) => "[...]"
    case Obj(_) => "{...}"
  }
}
