/**
 * The untyped values that flow through the student form: the form state, the
 * nested record from the backend and the submission payload are all plain
 * JavaScript objects, modelled as maps from keys to these values. An absent key
 * reads as `undefined`, which `Get` returns as `None`.
 */
module Json {
  import opened Wrappers

  /**
   * A date is kept opaque: either parsed from a stored value (`new Date(v)`) or a
   * clock reading (`new Date()`), which the caller supplies.
   */
  datatype Date = ParsedFrom(raw: Value) | ClockReading(millis: int)

  datatype Value =
    | Str(s: string)
    | Num(n: int)
    | Bool(b: bool)
    | Null
    | DateValue(d: Date)
    | StrList(items: seq<string>)

  /** JavaScript truthiness: `''`, `0`, `false` and `null` are falsy; objects and arrays are truthy. */
  predicate Truthy(v: Value) {
    match v
    case Str(s) => s != ""
    case Num(n) => n != 0
    case Bool(b) => b
    case Null => false
    case DateValue(_) => true
    case StrList(_) => true
  }

  /** `obj[key]`: `None` stands for `undefined`. */
  function Get(m: map<string, Value>, key: string): Option<Value> {
    if key in m then Some(m[key]) else None
  }

  /** Truthiness of `obj[key]`; `undefined` is falsy. */
  predicate TruthyAt(m: map<string, Value>, key: string) {
    key in m && Truthy(m[key])
  }

  /** `obj[key] || ''`. */
  function OrEmpty(m: map<string, Value>, key: string): Value
  {
    if TruthyAt(m, key) then m[key] else Str("")
  }

  /**
   * Writes an optional value into an object as `JSON.stringify` would send it:
   * an `undefined` value leaves the key out.
   */
  function Put(m: map<string, Value>, key: string, v: Option<Value>): map<string, Value>
  {
    if v.Some? then m[key := v.value] else m
  }
}
