/** The values `json.loads` produces, and what Python's `in`, `[]` and
    `.strip()` do with them. */
module PyJson {
  import opened Wrappers
  import opened Text

  /** A decoded JSON value. Numbers keep their literal text: the conversion
      never computes with them. */
  datatype Value =
    | Null
    | Bool(b: bool)
    | Num(literal: string)
    | Str(s: string)
    | Arr(items: seq<Value>)
    | Obj(fields: map<string, Value>)

  /** The Python exceptions the conversion can raise past its handler. */
  datatype PyError = TypeError | KeyError | AttributeError

  /** `key in item`: a key test on a dict, a substring test on a str, an
      element test on a list; a TypeError on a number, a bool or None. */
  function Contains(item: Value, key: string): (r: Option<bool>)
    ensures r.None? <==> (item.Null? || item.Bool? || item.Num?)
    ensures item.Obj? ==> r == Some(key in item.fields)
  {
    match item
    case Obj(m) => Some(key in m)
    case Str(s) => Some(IsSubstring(key, s))
    case Arr(xs) => Some(Str(key) in xs)
    case _ => None
  }

  /** `item[key]` with a str key: a lookup on a dict, a TypeError on
      anything else (a str or list wants an integer index). */
  function Subscript(item: Value, key: string): (r: Result<Value, PyError>)
    ensures r.Success? <==> item.Obj? && key in item.fields
    ensures r.Success? ==> r.value == item.fields[key]
  {
    match item
    case Obj(m) => if key in m then Success(m[key]) else Failure(KeyError)
    case _ => Failure(TypeError)
  }

  /** `v.strip()`: only a str has the method. */
  function StripText(v: Value): (r: Result<string, PyError>)
    ensures r.Success? <==> v.Str?
    ensures r.Success? ==> r.value == Strip(v.s)
    ensures r.Failure? ==> r.error == AttributeError
  {
    match v
    case Str(s) => Success(Strip(s))
    case _ => Failure(AttributeError)
  }
}
