/** Decoded JSON as Python holds it after `json.loads`, and the few Python
    operations the weather code applies to such values. Each operation returns
    `None` where Python would raise (KeyError, TypeError, AttributeError or
    IndexError). */
module Json {
  import opened Wrappers

  /** A JSON value: `null`, booleans, numbers, strings, arrays and objects. */
  datatype Value =
    | Null
    | Bool(b: bool)
    | Num(n: real)
    | Str(s: string)
    | Arr(items: seq<Value>)
    | Obj(fields: map<string, Value>)

  /** Python's `d.get(k)` on a dict: the entry, or `None` (JSON null) when absent. */
  function Lookup(d: map<string, Value>, k: string): Value
  {
    if k in d then d[k] else Null
  }

  /** Python's `v.get(k)`: only dicts have `get`. */
  function Get(v: Value, k: string): Option<Value>
  {
    if v.Obj? then Some(Lookup(v.fields, k)) else None
  }

  /** Python's `v[k]` with a string key: only a dict holding `k` answers. */
  function Index(v: Value, k: string): Option<Value>
  {
    if v.Obj? && k in v.fields then Some(v.fields[k]) else None
  }

  /** Python's `v[0]`: the first element of a list or the first character of a
      string; a dict has no key 0 (JSON keys are strings). */
  function First(v: Value): Option<Value>
  {
    match v
    case Arr(items) => if |items| > 0 then Some(items[0]) else None
    case Str(s) => if |s| > 0 then Some(Str([s[0]])) else None
    case _ => None
  }

  /** The value as a Python number: `bool` is a subclass of `int`. */
  function Number(v: Value): Option<real>
  {
    match v
    case Num(n) => Some(n)
    case Bool(b) => Some(if b then 1.0 else 0.0)
    case _ => None
  }

  /** The value as a Python `str`. */
  function AsString(v: Value): Option<string>
  {
    if v.Str? then Some(v.s) else None
  }

  /** `k` occurs in `s` as a contiguous run of characters. */
  predicate IsSubstring(k: string, s: string)
    decreases |s|
  {
    k <= s || (|s| > 0 && IsSubstring(k, s[1..]))
  }

  /** Python's `k in v` for a string `k`: key membership for a dict, substring
      for a string, element equality for a list; other values raise TypeError. */
  function Contains(v: Value, k: string): Option<bool>
  {
    match v
    case Obj(fields) => Some(k in fields)
    case Str(s) => Some(IsSubstring(k, s))
    case Arr(items) => Some(Str(k) in items)
    case _ => None
  }
}
