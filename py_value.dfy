/**
  Python values as the library sees them: the decoded JSON of an API reply and
  the literal tree produced by evaluating a track blob. Dicts have string keys.
 */
module PyValue {
  import opened Wrappers
  import Text

  datatype Value =
    | VNone
    | VBool(b: bool)
    | VInt(i: int)
    | VStr(s: string)
    | VList(items: seq<Value>)
    | VDict(fields: map<string, Value>)

  /** Python truthiness (`if v:`). */
  predicate Truthy(v: Value) {
    match v
    case VNone => false
    case VBool(b) => b
    case VInt(i) => i != 0
    case VStr(s) => |s| > 0
    case VList(items) => |items| > 0
    case VDict(fields) => |fields| > 0
  }

  /** `v.get(key)`: the entry when `v` is a dict holding `key`, otherwise None. */
  function Get(v: Value, key: string): Value {
    if v.VDict? && key in v.fields then v.fields[key] else VNone
  }

  /** Python's `v == n` against an int literal (`False == 0` and `True == 1` hold in Python). */
  predicate EqInt(v: Value, n: int) {
    v == VInt(n) || (v.VBool? && n == (if v.b then 1 else 0))
  }

  /** `len(v)`; None stands for the TypeError Python raises on scalars. */
  function Len(v: Value): Option<nat> {
    match v
    case VStr(s) => Some(|s|)
    case VList(items) => Some(|items|)
    case VDict(fields) => Some(|fields|)
    case _ => None
  }

  /** `str(v)` / f-string formatting of a scalar; containers get a fixed placeholder. */
  function Format(v: Value): string {
    match v
    case VNone => "None"
    case VBool(b) => if b then "True" else "False"
    case VInt(i) => Text.IntToString(i)
    case VStr(s) => s
    case VList(_) => "[...]"
    case VDict(_) => "{...}"
  }
}
