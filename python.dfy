/** The slice of Python's runtime the services and routes depend on: the
    values a JSON request body can hold, Python truthiness (`if not x:`),
    the exception kinds the code raises or catches by class, and the
    "returns or raises" outcome of a call. */
module Python {

  /** A byte of a `bytes` object. */
  type byte = x: int | 0 <= x < 256

  datatype Option<T> = None | Some(value: T)

  /** A value as `request.json` or a Python caller can hand it over.
      JSON numbers are modelled as integers only. */
  datatype Value =
    | PyNone
    | PyBool(b: bool)
    | PyInt(i: int)
    | PyStr(s: string)
    | PyList(items: seq<Value>)
    | PyDict(entries: map<string, Value>)

  /** Python truthiness, the test behind `if not x:`. */
  predicate Truthy(v: Value)
  {
    match v
    case PyNone => false
    case PyBool(b) => b
    case PyInt(i) => i != 0
    case PyStr(s) => s != ""
    case PyList(xs) => xs != []
    case PyDict(m) => m != map[]
  }

  /** `type(v).__name__` */
  function TypeName(v: Value): string
  {
    match v
    case PyNone => "NoneType"
    case PyBool(_) => "bool"
    case PyInt(_) => "int"
    case PyStr(_) => "str"
    case PyList(_) => "list"
    case PyDict(_) => "dict"
  }

  /** Lists and dicts cannot be dictionary keys. */
  predicate Hashable(v: Value)
  {
    !(v.PyList? || v.PyDict?)
  }

  /** Strings and lists support slicing (`v[:50]`); the other values raise TypeError. */
  predicate Sliceable(v: Value)
  {
    v.PyStr? || v.PyList?
  }

  /** `d.get(key, default)` on a dict body. */
  function Get(entries: map<string, Value>, key: string, default: Value): Value
  {
    if key in entries then entries[key] else default
  }

  /** `s.startswith(prefix)` */
  predicate StartsWith(s: string, prefix: string)
  {
    |prefix| <= |s| && s[..|prefix|] == prefix
  }

  /** An exception, by the class an `except` clause distinguishes, with `str(e)`. */
  datatype Exc =
    | ValueError(msg: string)
    | TypeError(msg: string)
    | AttributeError(msg: string)
    | Exception(msg: string)

  /** A call that either returns a value or raises. */
  datatype Result<T> = Ok(value: T) | Raise(exc: Exc)
}
